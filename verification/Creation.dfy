/** Creation times: with the mutex in force, the jobs of a container are created in the order in which they
    are let in. */
module Creation {
  import opened Domain
  import opened Store
  import opened WorkerSteps
  import opened Protocol
  import opened Invariant

  /** The request holds the mutex and has not inserted its job yet. */
  predicate Inside(r: Request) { r.stage.AwaitRow? || Guarding(r) }

  /** The job row is not younger than the request. */
  predicate Older(job: Job, r: Request) {
    job.target == r.job.target && job.kind != CreateContainer && Inside(r) ==> job.createdAt <= r.job.createdAt
  }

  predicate Dated(s: Sys) {
    && (forall j :: j in s.w.jobs ==> s.w.jobs[j].createdAt <= s.clock)
    && (forall j :: j in s.reqs ==> s.reqs[j].job.createdAt <= s.clock)
    && (s.locking.mutex ==> forall j, k :: j in s.w.jobs && k in s.reqs ==> Older(s.w.jobs[j], s.reqs[k]))
  }

  /** Requests and jobs disappear, jobs keep their creation time, and time goes on. */
  lemma FewerDated(s: Sys, t: Sys)
    requires Dated(s) && t.locking == s.locking && s.clock <= t.clock
    requires forall j :: j in t.reqs ==> j in s.reqs && t.reqs[j] == s.reqs[j]
    requires forall j :: j in t.w.jobs ==> j in s.w.jobs && s.w.jobs[j].SameJob(t.w.jobs[j])
    ensures Dated(t)
  {
    forall j, k | j in t.w.jobs && k in t.reqs ensures t.locking.mutex ==> Older(t.w.jobs[j], t.reqs[k]) {
      assert s.locking.mutex ==> Older(s.w.jobs[j], s.reqs[k]);
    }
  }

  lemma CallDated(s: Sys, r: Request, rowIds: set<ContainerId>)
    requires Dated(s) && r.job.createdAt == s.clock && !Inside(r)
    ensures Dated(Call(s, r, rowIds))
  {
    var t := Call(s, r, rowIds);
    forall j, k | j in t.w.jobs && k in t.reqs ensures t.locking.mutex ==> Older(t.w.jobs[j], t.reqs[k]) {
      if k != r.job.id { assert s.locking.mutex ==> Older(s.w.jobs[j], s.reqs[k]); }
    }
  }

  lemma MutexDated(s: Sys, r: Request, reply: Reply)
    requires Dated(s) && r.job.id in s.reqs && s.reqs[r.job.id] == r && r.stage.AwaitMutex?
    ensures Dated(ServeNext(s, r, reply))
  {
    var t := ServeNext(s, r, reply);
    forall j, k | j in t.w.jobs && k in t.reqs ensures t.locking.mutex ==> Older(t.w.jobs[j], t.reqs[k]) {
      if k != r.job.id { assert s.locking.mutex ==> Older(s.w.jobs[j], s.reqs[k]); }
    }
  }

  /** A request goes on with the same job; nothing but its stage has changed. */
  lemma GotoDated(s: Sys, t: Sys, r: Request, stage: Stage)
    requires Dated(s) && r.job.id in s.reqs && s.reqs[r.job.id] == r && Inside(r)
    requires t.w.jobs == s.w.jobs && t.reqs == s.reqs[r.job.id := r.(stage := stage)] && t.clock == s.clock && t.locking == s.locking
    ensures Dated(t)
  {
    forall j, k | j in t.w.jobs && k in t.reqs ensures t.locking.mutex ==> Older(t.w.jobs[j], t.reqs[k]) {
      assert s.locking.mutex ==> Older(s.w.jobs[j], s.reqs[k]);
    }
  }

  lemma FoundDated(s: Sys, r: Request, row: Container)
    requires Dated(s) && r.job.id in s.reqs && s.reqs[r.job.id] == r
    ensures Dated(Found(s, r, row))
  {
    var t := Found(s, r, row);
    forall j, k | j in t.w.jobs && k in t.reqs ensures t.locking.mutex ==> Older(t.w.jobs[j], t.reqs[k]) {
      if k != r.job.id { assert s.locking.mutex ==> Older(s.w.jobs[j], s.reqs[k]); }
    }
  }

  lemma LeaveDated(s: Sys, t: Sys, r: Request)
    requires Dated(s) && t.reqs == s.reqs - {r.job.id} && t.w.jobs == s.w.jobs && t.clock == s.clock && t.locking == s.locking
    ensures Dated(t)
  {
    FewerDated(s, t);
  }

  /** Stages that make no job row visible. */
  lemma StageDated(s: Sys, r: Request, reply: Reply)
    requires Dated(s) && r.job.id in s.reqs && s.reqs[r.job.id] == r && !r.stage.Insert? && !r.stage.NewJob?
    ensures Dated(ServeNext(s, r, reply))
  {
    var t := ServeNext(s, r, reply);
    match r.stage
    case AwaitMutex => MutexDated(s, r, reply);
    case AwaitRow =>
      if r.job.target in s.w.rows { GotoDated(s, t, r, CheckJobs(s.w.rows[r.job.target])); } else { LeaveDated(s, t, r); }
    case CheckJobs(seen) => GotoDated(s, t, r, Insert(seen));
    case NewRow(row) =>
      FoundDated(s, r, row);
      if reply.Refused? { LeaveDated(s, t, r); } else if reply.Lost? { LeaveDated(Found(s, r, row), t, r); }
    case Send => LeaveDated(s, t, r);
  }

  /** While one request is inside, no other is; so the new row is not older than the others either. */
  lemma PublishDated(s: Sys, r: Request)
    requires Inv(s) && Dated(s) && r.job.id in s.reqs && s.reqs[r.job.id] == r && (r.stage.Insert? || r.stage.NewJob?)
    ensures Dated(Publish(s, r))
  {
    var t := Publish(s, r);
    assert RequestOk(r, s.hist.rowIds) && HoldsLocks(s, r);
    forall j, k | j in t.w.jobs && k in t.reqs ensures t.locking.mutex ==> Older(t.w.jobs[j], t.reqs[k]) {
      if k != r.job.id {
        assert HoldsLocks(s, s.reqs[k]) && s.reqs[k].job.id == k;
        if j != r.job.id { assert s.locking.mutex ==> Older(s.w.jobs[j], s.reqs[k]); }
      }
    }
  }

  lemma SaveDated(s: Sys, r: Request, reply: Reply)
    requires Inv(s) && Dated(s) && r.job.id in s.reqs && s.reqs[r.job.id] == r && (r.stage.Insert? || r.stage.NewJob?)
    ensures Dated(SaveJob(s, r, reply))
  {
    PublishDated(s, r);
    match reply
    case Done =>
    case Refused => FewerDated(s, SaveJob(s, r, reply));
    case Lost => FewerDated(Publish(s, r), SaveJob(s, r, reply));
  }

  lemma WorkDated(s: Sys, i: nat, a: Answer)
    requires Inv(s) && Dated(s) && i < |s.workers| && s.workers[i].Busy?
    ensures Dated(WorkOn(s, i, a))
  {
    WorkOnJobs(s.w, s.workers[i], a);
    assert WorkerOk(s.w.jobs, s.workers[i]);
    FewerDated(s, WorkOn(s, i, a));
  }

  lemma StepDated(s: Sys, st: Step)
    requires Inv(s) && Dated(s) && Enabled(s, st)
    ensures Dated(Apply(s, st))
  {
    match st
    case CallGuarded(job) => CallDated(s, Request(job, AwaitMutex), s.hist.rowIds);
    case CallCreate(job, row) => CallDated(s, Request(job, NewRow(row)), s.hist.rowIds + {row.id});
    case Serve(j, reply) => ServeDated(s, j, reply);
    case Answered(i, a) => WorkDated(s, i, a);
    case _ => OutsideDated(s, st);
  }

  lemma OutsideDated(s: Sys, st: Step)
    requires Dated(s) && Enabled(s, st) && !st.CallGuarded? && !st.CallCreate? && !st.Serve? && !st.Answered?
    ensures Dated(Apply(s, st))
  {
    FewerDated(s, Apply(s, st));
  }

  lemma ServeDated(s: Sys, j: JobId, reply: Reply)
    requires Inv(s) && Dated(s) && j in s.reqs
    ensures Dated(ServeNext(s, s.reqs[j], reply))
  {
    assert s.reqs[j].job.id == j;
    if s.reqs[j].stage.Insert? || s.reqs[j].stage.NewJob? { SaveDated(s, s.reqs[j], reply); } else { StageDated(s, s.reqs[j], reply); }
  }

  lemma {:induction false} RunDated(s: Sys, run: seq<Step>)
    requires Inv(s) && Dated(s) && Feasible(s, run)
    ensures Inv(Final(s, run)) && Dated(Final(s, run))
    decreases |run|
  {
    if run != [] {
      StepInv(s, run[0]);
      StepDated(s, run[0]);
      RunDated(Apply(s, run[0]), run[1..]);
    }
  }

  /** In every reachable state nothing is dated in the future. With the mutex in force, a Start, Stop or Delete job
      that is about to be inserted was created no earlier than any such job its container already has: a job is
      dated when its request has got the mutex, not when the request arrived. */
  lemma InsertedInOrder(s: Sys, j: JobId, k: JobId)
    requires Reachable(s) && k in s.reqs && j in s.w.jobs
    ensures s.w.jobs[j].createdAt <= s.clock && s.reqs[k].job.createdAt <= s.clock
    ensures var job, r := s.w.jobs[j], s.reqs[k];
      s.locking.mutex && r.stage.Insert? && job.target == r.job.target && job.kind != CreateContainer ==> job.createdAt <= r.job.createdAt
  {
    var s0, run :| Init(s0) && Feasible(s0, run) && s == Final(s0, run);
    InitInv(s0);
    RunDated(s0, run);
    assert s.locking.mutex ==> Older(s.w.jobs[j], s.reqs[k]);
  }

  /** When a request gets the mutex its job is dated, and when Create's row is written its job is. */
  lemma DatedWhenLetIn(s: Sys, j: JobId, reply: Reply)
    requires Reachable(s) && Enabled(s, Serve(j, reply))
    requires s.reqs[j].stage.AwaitMutex? || (s.reqs[j].stage.NewRow? && reply.Done?)
    ensures var t := Apply(s, Serve(j, reply));
      && j in t.reqs && t.reqs[j].job == s.reqs[j].job.(createdAt := s.clock)
      && (s.reqs[j].stage.AwaitMutex? ==> t.reqs[j].stage.AwaitRow? && (s.locking.mutex ==> s.reqs[j].job.target !in s.mutex))
      && (s.reqs[j].stage.NewRow? ==> t.reqs[j].stage.NewJob?)
  {
    ReachableInv(s);
    assert s.reqs[j].job.id == j;
  }
}
