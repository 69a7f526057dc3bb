/** What the machine does when nothing interferes: an uncontended request is admitted, queued and
    worked off exactly as the sequential code reads. */
module Solo {
  import opened Domain
  import opened Store
  import opened WorkerSteps
  import opened Protocol

  lemma {:induction false} FinalMore(s: Sys, run: seq<Step>, st: Step)
    requires Feasible(s, run) && Enabled(Final(s, run), st)
    ensures Feasible(s, run + [st]) && Final(s, run + [st]) == Apply(Final(s, run), st)
    decreases |run|
  {
    if run == [] {
      assert run + [st] == [st];
    } else {
      assert (run + [st])[1..] == run[1..] + [st];
      FinalMore(Apply(s, run[0]), run[1..], st);
    }
  }

  /** Some run leads from state o to state s. */
  ghost predicate From(o: Sys, s: Sys) { exists run :: Feasible(o, run) && s == Final(o, run) }

  lemma FromItself(o: Sys)
    ensures From(o, o)
  {
    assert Feasible(o, []) && o == Final(o, []);
  }

  lemma FromInit(o: Sys, s: Sys)
    requires Init(o) && From(o, s)
    ensures Reachable(s)
  {
  }

  lemma ReachMore(o: Sys, s: Sys, st: Step)
    requires From(o, s) && Enabled(s, st)
    ensures From(o, Apply(s, st))
  {
    var run :| Feasible(o, run) && s == Final(o, run);
    FinalMore(o, run, st);
  }

  // ---------- admission ----------

  /** A request of this job at the given stage, holding the locks in force; nothing else has moved. */
  function Standing(s: Sys, job: Job, stage: Stage): Sys {
    var c := job.target;
    s.(reqs := s.reqs[job.id := Request(job, stage)],
       mutex := if s.locking.mutex then s.mutex[c := job.id] else s.mutex,
       locks := if s.locking.rowLock && !stage.AwaitRow? then s.locks[c := job.id] else s.locks)
  }

  /** The job has been made visible and handed to the channel, and nothing else has happened. */
  function Admitted(s: Sys, job: Job): Sys {
    s.(w := s.w.(jobs := s.w.jobs[job.id := job]), queue := s.queue + [job])
  }

  function Known(s: Sys, j: JobId): Sys { s.(hist := s.hist.(jobIds := s.hist.jobIds + {j})) }

  /** No other request is inside this container. */
  predicate Uncontended(s: Sys, job: Job) {
    job.target !in s.mutex && job.target !in s.locks && job.id !in s.reqs
  }

  lemma Called(o: Sys, s: Sys, job: Job)
    requires From(o, s) && Enabled(s, CallGuarded(job)) && Uncontended(s, job)
    ensures From(o, Standing(Known(s, job.id), job, AwaitRow))
  {
    var t := Apply(s, CallGuarded(job));
    ReachMore(o, s, CallGuarded(job));
    ReachMore(o, t, Serve(job.id, Done));
    assert t.reqs[job.id := Request(job, AwaitRow)] == s.reqs[job.id := Request(job, AwaitRow)];
    assert Apply(t, Serve(job.id, Done)) == Standing(Known(s, job.id), job, AwaitRow);
  }

  lemma RowRead(o: Sys, s: Sys, job: Job)
    requires From(o, Standing(s, job, AwaitRow)) && s.phase == Up && Uncontended(s, job)
    requires job.target in s.w.rows && s.w.rows[job.target].owner == job.user
    ensures From(o, Standing(s, job, CheckJobs(s.w.rows[job.target])))
  {
    var t, t' := Standing(s, job, AwaitRow), Standing(s, job, CheckJobs(s.w.rows[job.target]));
    ReachMore(o, t, Serve(job.id, Done));
    assert t.reqs[job.id := t'.reqs[job.id]] == t'.reqs;
    assert Apply(t, Serve(job.id, Done)) == t';
  }

  /** The guard passes: the job is inserted, its locks fall, and the channel takes it. */
  lemma Passes(o: Sys, s: Sys, job: Job, seen: Container, reply: Reply)
    requires From(o, Standing(s, job, CheckJobs(seen))) && s.phase == Up && Uncontended(s, job)
    requires StatusAllows(job.kind, seen.status) && |s.queue| < CHANNEL_CAPACITY
    requires if reply.Done? then !HasActiveJob(s.w, job.target) else !s.locking.rowLock
    ensures From(o, Admitted(s.(hist := PastGuard(s, job, reply)), job))
  {
    var t := Standing(s, job, CheckJobs(seen));
    var u := Checked(o, s, job, seen, reply);
    ReachMore(o, u, Serve(job.id, Done));
    InsertedStands(s.(hist := u.hist), job, seen);
    var v := Published(s.(hist := u.hist), job);
    assert Apply(u, Serve(job.id, Done)) == v;
    ReachMore(o, v, Serve(job.id, Done));
    SentLeaves(s.(hist := u.hist), job);
  }

  lemma Checked(o: Sys, s: Sys, job: Job, seen: Container, reply: Reply) returns (u: Sys)
    requires From(o, Standing(s, job, CheckJobs(seen))) && s.phase == Up && Uncontended(s, job)
    requires StatusAllows(job.kind, seen.status)
    requires if reply.Done? then !HasActiveJob(s.w, job.target) else !s.locking.rowLock
    ensures From(o, u) && u == Standing(s.(hist := PastGuard(s, job, reply)), job, Insert(seen))
  {
    var t := Standing(s, job, CheckJobs(seen));
    ReachMore(o, t, Serve(job.id, reply));
    u := Apply(t, Serve(job.id, reply));
    assert t.reqs[job.id := Request(job, Insert(seen))] == s.reqs[job.id := Request(job, Insert(seen))];
    assert BetweenWrites(t, job.target) <==> BetweenWrites(s, job.target) by {
      assert forall j :: j in s.reqs ==> j in t.reqs && t.reqs[j] == s.reqs[j];
    }
  }

  function Published(s: Sys, job: Job): Sys {
    s.(w := s.w.(jobs := s.w.jobs[job.id := job]),
       reqs := s.reqs[job.id := Request(job, Send)],
       mutex := if s.locking.mutex then s.mutex[job.target := job.id] else s.mutex)
  }

  lemma InsertedStands(s: Sys, job: Job, seen: Container)
    requires Uncontended(s, job)
    ensures Publish(Standing(s, job, Insert(seen)), Request(job, Insert(seen))) == Published(s, job)
  {
    assert s.reqs[job.id := Request(job, Insert(seen))][job.id := Request(job, Send)] == s.reqs[job.id := Request(job, Send)];
    assert s.locks[job.target := job.id] - {job.target} == s.locks;
  }

  lemma SentLeaves(s: Sys, job: Job)
    requires Uncontended(s, job)
    ensures Enqueue(Leave(Published(s, job), Request(job, Send)), job) == Admitted(s, job)
  {
    assert s.reqs[job.id := Request(job, Send)] - {job.id} == s.reqs;
    assert s.mutex[job.target := job.id] - {job.target} == s.mutex;
  }

  predicate Admissible(s: Sys, job: Job) {
    && Enabled(s, CallGuarded(job)) && Uncontended(s, job) && !BetweenWrites(s, job.target)
    && job.target in s.w.rows && s.w.rows[job.target].owner == job.user
    && StatusAllows(job.kind, s.w.rows[job.target].status) && !HasActiveJob(s.w, job.target)
    && |s.queue| < CHANNEL_CAPACITY
  }

  /** An uncontended request on a container without active jobs, in a status that allows it, can be
      admitted: its job row appears, its job goes to the end of the channel, its locks are released
      and everything else is as before. */
  lemma AdmitAlone(o: Sys, s: Sys, job: Job)
    requires From(o, s) && Admissible(s, job)
    ensures From(o, Admitted(Known(s, job.id), job))
  {
    Called(o, s, job);
    RowRead(o, Known(s, job.id), job);
    Passes(o, Known(s, job.id), job, s.w.rows[job.target], Done);
  }

  /** Create between its two writes. */
  function Founded(s: Sys, job: Job, row: Container): Sys {
    s.(w := s.w.(rows := s.w.rows[row.id := row]), reqs := s.reqs[job.id := Request(job, NewJob)],
       hist := s.hist.(jobIds := s.hist.jobIds + {job.id}, rowIds := s.hist.rowIds + {row.id}))
  }

  lemma RowMade(o: Sys, s: Sys, job: Job, row: Container)
    requires From(o, s) && Enabled(s, CallCreate(job, row)) && NameFree(s.w, row)
    ensures From(o, Founded(s, job, row))
  {
    var t := Apply(s, CallCreate(job, row));
    ReachMore(o, s, CallCreate(job, row));
    ReachMore(o, t, Serve(job.id, Done));
    assert t.reqs[job.id := Request(job, NewJob)] == s.reqs[job.id := Request(job, NewJob)];
    assert Apply(t, Serve(job.id, Done)) == Founded(s, job, row);
  }

  /** Create's second write, and the hand-over. */
  lemma JobMade(o: Sys, s: Sys, job: Job)
    requires From(o, s.(reqs := s.reqs[job.id := Request(job, NewJob)]))
    requires s.phase == Up && Uncontended(s, job) && |s.queue| < CHANNEL_CAPACITY
    ensures From(o, Admitted(s, job))
  {
    var t := s.(reqs := s.reqs[job.id := Request(job, NewJob)]);
    ReachMore(o, t, Serve(job.id, Done));
    var u := s.(w := s.w.(jobs := s.w.jobs[job.id := job]), reqs := s.reqs[job.id := Request(job, Send)]);
    assert t.reqs[job.id := Request(job, Send)] == u.reqs;
    assert Apply(t, Serve(job.id, Done)) == u;
    ReachMore(o, u, Serve(job.id, Done));
    assert u.reqs - {job.id} == s.reqs;
    assert Apply(u, Serve(job.id, Done)) == Admitted(s, job);
  }

  // ---------- work ----------

  predicate Timely(log: seq<Event>, now: Time) { forall k :: 0 <= k < |log| && log[k].Reply? ==> log[k].a.now == now }

  predicate SameAdmissions(h: History, h': History) {
    h'.jobIds == h.jobIds && h'.rowIds == h.rowIds && h'.split == h.split && h'.unchecked == h.unchecked
    && h'.stale == h.stale
  }

  lemma OneAnswer(o: Sys, s: Sys, i: nat, e: Event) returns (t: Sys)
    requires From(o, s) && s.phase == Up && i < |s.workers| && CanMeet(Outcome(s.w, s.workers[i]), e)
    requires s.workers[i].Busy? ==> s.workers[i].job.target !in s.locks
    requires e.Reply? ==> e.a.now == s.clock
    ensures var r := Meet(Outcome(s.w, s.workers[i]), e);
      From(o, t) && t == s.(w := r.world, workers := s.workers[i := r.proc], hist := t.hist)
    ensures SameAdmissions(s.hist, t.hist)
  {
    match e
    case Reply(a) =>
      ReachMore(o, s, Answered(i, a));
      t := Apply(s, Answered(i, a));
    case Stops(d) =>
      ReachMore(o, s, Halts(d));
      t := Apply(s, Halts(d));
      assert s.workers[i := s.workers[i]] == s.workers;
  }

  /** A worker that nobody disturbs goes exactly the way of the sequential code. */
  lemma {:induction false} WorkerRuns(o: Sys, s: Sys, i: nat, log: seq<Event>) returns (t: Sys)
    requires From(o, s) && s.phase == Up && i < |s.workers| && s.workers[i].Busy? && s.workers[i].job.target !in s.locks
    requires Legal(Outcome(s.w, s.workers[i]), log) && Timely(log, s.clock)
    ensures var r := Replay(Outcome(s.w, s.workers[i]), log);
      From(o, t) && t == s.(w := r.world, workers := s.workers[i := r.proc], hist := t.hist)
    ensures SameAdmissions(s.hist, t.hist)
    decreases |log|
  {
    if log == [] {
      t := s;
      assert s.workers[i := s.workers[i]] == s.workers;
    } else {
      var init, e := log[..|log| - 1], log[|log| - 1];
      var m := WorkerRuns(o, s, i, init);
      SameTarget(Outcome(s.w, s.workers[i]), init);
      t := OneAnswer(o, m, i, e);
      assert s.workers[i := m.workers[i]][i := t.workers[i]] == s.workers[i := t.workers[i]];
    }
  }

  lemma {:induction false} SameTarget(o: Outcome, log: seq<Event>)
    requires o.proc.Busy?
    ensures Replay(o, log).proc.Busy? ==> Replay(o, log).proc.job.target == o.proc.job.target
    decreases |log|
  {
    if log != [] {
      var m := Replay(o, log[..|log| - 1]);
      SameTarget(o, log[..|log| - 1]);
      if log[|log| - 1].Reply? && m.proc.Busy? { WorkOnProc(m.world, m.proc, log[|log| - 1].a); }
    }
  }
}
