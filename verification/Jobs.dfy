/** Theorems about jobs over all runs: mutual exclusion, delivery at most once, and the life of
    a job row. */
module Jobs {
  import opened Domain
  import opened Store
  import opened WorkerSteps
  import opened Protocol
  import opened Invariant

  // ---------- mutual exclusion ----------

  /** Whichever of the two locks is in force: a container has at most one CREATE job ever, at most
      one active other job unless a failed look-up let a guard pass, and in all at most one
      active job unless a guard also fell between Create's two writes. */
  lemma MutualExclusion(s: Sys, j: JobId, k: JobId)
    requires Reachable(s) && j in s.w.jobs && k in s.w.jobs && j != k
    requires s.w.jobs[j].target == s.w.jobs[k].target
    ensures s.w.jobs[j].kind != CreateContainer || s.w.jobs[k].kind != CreateContainer
    ensures s.w.jobs[j].Active() && s.w.jobs[k].Active() ==>
              var c := s.w.jobs[j].target;
              && (c in s.hist.split || c in s.hist.unchecked)
              && (c in s.hist.unchecked || s.w.jobs[j].kind == CreateContainer || s.w.jobs[k].kind == CreateContainer)
    ensures s.locking.rowLock ==> s.hist.unchecked == {}
  {
    ReachableInv(s);
    assert Coexist(s.hist, s.w.jobs[j], s.w.jobs[k]);
  }

  /** No two workers are inside `process` for one orderly container, and on any container
      they are never processing the same job. */
  lemma OneWorkerPerContainer(s: Sys, i: nat, k: nat)
    requires Reachable(s) && i < |s.workers| && k < |s.workers| && i != k && s.workers[i].Busy? && s.workers[k].Busy?
    ensures s.workers[i].job.id != s.workers[k].job.id
    ensures s.workers[i].job.target == s.workers[k].job.target ==> !Orderly(s.hist, s.workers[i].job.target)
  {
    ReachableInv(s);
    assert WorkerOk(s.w.jobs, s.workers[i]) && WorkerOk(s.w.jobs, s.workers[k]);
    assert Coexist(s.hist, s.w.jobs[s.workers[i].job.id], s.w.jobs[s.workers[k].job.id]);
  }

  // ---------- a job row only moves forward ----------

  function Rank(status: JobStatus): nat {
    match status case JobPending => 0 case JobRunning => 1 case JobSuccess => 2 case JobFailed => 2
  }

  /** From one state to a later one: the job is the same, its status has not gone back, and once
      it has ended its row does not change any more. */
  predicate Forward(job: Job, later: Job) {
    && job.SameJob(later) && Rank(job.status) <= Rank(later.status)
    && (job.Ended() ==> later == job)
  }

  predicate JobsForward(s: Sys, t: Sys) {
    && s.hist.jobIds <= t.hist.jobIds
    && (forall j :: j in s.w.jobs && j in t.w.jobs ==> Forward(s.w.jobs[j], t.w.jobs[j]))
    && (forall j :: j in s.w.jobs && j !in t.w.jobs ==> s.w.jobs[j].Ended())
    && (forall j :: j in t.w.jobs && j !in s.w.jobs ==> j in t.reqs || j in s.reqs)
    && (forall j :: j in t.reqs && j !in s.reqs ==> j !in s.hist.jobIds)
  }

  lemma WorkForward(s: Sys, i: nat, a: Answer)
    requires Placed(s) && i < |s.workers| && s.workers[i].Busy?
    ensures JobsForward(s, WorkOn(s, i, a))
  {
    WorkOnJobs(s.w, s.workers[i], a);
    assert WorkerOk(s.w.jobs, s.workers[i]);
  }

  lemma ServeForward(s: Sys, j: JobId, reply: Reply)
    requires Keyed(s) && Placed(s) && j in s.reqs && CanServe(s, s.reqs[j], reply)
    ensures JobsForward(s, ServeNext(s, s.reqs[j], reply))
  {
    ServeReach(s, s.reqs[j], reply);
    assert s.reqs[j].job.id == j;
    assert s.reqs[j].stage.Insert? || s.reqs[j].stage.NewJob? ==> j !in s.w.jobs;
    match s.reqs[j].stage
    case Insert(_) =>
    case NewJob =>
    case NewRow(_) =>
    case _ =>
  }

  lemma CleanForward(s: Sys)
    ensures JobsForward(s, s.(w := s.w.(jobs := DeleteExpired(s.w.jobs, s.clock))))
  {
  }

  lemma SweepForward(s: Sys, reply: Reply)
    ensures JobsForward(s, SweepUp(s, reply))
  {
  }

  lemma CallForward(s: Sys, r: Request, rowIds: set<ContainerId>)
    requires r.job.id !in s.hist.jobIds
    ensures JobsForward(s, Call(s, r, rowIds))
  {
  }

  lemma StepForward(s: Sys, st: Step)
    requires Keyed(s) && Placed(s) && Enabled(s, st)
    ensures JobsForward(s, Apply(s, st))
  {
    match st
    case CallGuarded(job) => CallForward(s, Request(job, AwaitMutex), s.hist.rowIds);
    case CallCreate(job, row) => CallForward(s, Request(job, NewRow(row)), s.hist.rowIds + {row.id});
    case Serve(j, reply) => ServeForward(s, j, reply);
    case Answered(i, a) => WorkForward(s, i, a);
    case Clean(_) => CleanForward(s);
    case Recover(reply) => SweepForward(s, reply);
    case _ =>
  }

  lemma {:induction false} GoneStays(s: Sys, run: seq<Step>, j: JobId)
    requires Inv(s) && Feasible(s, run) && j in s.hist.jobIds && j !in s.w.jobs && j !in s.reqs
    ensures j !in Final(s, run).w.jobs
    decreases |run|
  {
    if run != [] {
      StepInv(s, run[0]);
      StepForward(s, run[0]);
      GoneStays(Apply(s, run[0]), run[1..], j);
    }
  }

  /** Over any run, with crashes and restarts, a job row's status never goes back, an ended row
      changes only by being deleted, and a row that was not ended is never deleted before it is. */
  lemma {:induction false} RunForward(s: Sys, run: seq<Step>, j: JobId)
    requires Inv(s) && Feasible(s, run) && j in s.w.jobs
    ensures var t := Final(s, run); j in t.w.jobs ==> Forward(s.w.jobs[j], t.w.jobs[j])
    decreases |run|
  {
    if run != [] {
      var t := Apply(s, run[0]);
      StepInv(s, run[0]);
      StepForward(s, run[0]);
      if j in t.w.jobs {
        RunForward(t, run[1..], j);
      } else {
        assert j !in s.reqs by { assert j in s.reqs ==> Image(s.w.jobs, s.reqs[j].job); }
        GoneStays(t, run[1..], j);
      }
    }
  }

  /** In every reachable state: a completion time marks exactly the rows that a worker has ended, a failed
      row without one is marked as interrupted by the start-up recovery, and an active row has neither
      an error nor a completion time. */
  lemma CompletionTimes(s: Sys, j: JobId)
    requires Reachable(s) && j in s.w.jobs
    ensures var job := s.w.jobs[j];
      && (job.completedAt.Some? <==> job.Ended() && job.error != Some(Interrupted))
      && (job.error.Some? <==> job.status == JobFailed)
      && (job.error == Some(Interrupted) ==> job.status == JobFailed && job.completedAt == None)
  {
    ReachableInv(s);
    assert Columns(s.w.jobs[j]);
  }

  // ---------- delivery at most once ----------

  predicate DeliversNow(s: Sys, st: Step, j: JobId) { st.Take? && |s.queue| > 0 && s.queue[0].id == j }

  /** Some worker receives job j from the channel during the run. */
  predicate Delivers(s: Sys, run: seq<Step>, j: JobId)
    requires Feasible(s, run)
    decreases |run|
  {
    run != [] && (DeliversNow(s, run[0], j) || Delivers(Apply(s, run[0]), run[1..], j))
  }

  predicate PastPending(s: Sys, j: JobId) {
    j in s.hist.jobIds && j !in s.reqs && (j in s.w.jobs ==> s.w.jobs[j].status != JobPending)
  }

  /** Once a job row has left PENDING, no worker ever receives the job again: not in this process,
      and not after any number of crashes and restarts. */
  lemma {:induction false} NeverDeliveredAgain(s: Sys, run: seq<Step>, j: JobId)
    requires Inv(s) && Feasible(s, run) && PastPending(s, j)
    ensures !Delivers(s, run, j)
    decreases |run|
  {
    if run != [] {
      assert |s.queue| > 0 ==> Image(s.w.jobs, s.queue[0]);
      StepInv(s, run[0]);
      StepForward(s, run[0]);
      NeverDeliveredAgain(Apply(s, run[0]), run[1..], j);
    }
  }

  /** If the RUNNING write of the job a worker holds takes effect, that worker is the last to start it. */
  lemma MarkedOnce(s: Sys, i: nat, a: Answer, rest: seq<Step>)
    requires Inv(s) && Enabled(s, Answered(i, a)) && s.workers[i].pc.Mark? && a.reply.TookEffect()
    requires Feasible(Apply(s, Answered(i, a)), rest)
    ensures !Delivers(Apply(s, Answered(i, a)), rest, s.workers[i].job.id)
  {
    var p, t := s.workers[i], Apply(s, Answered(i, a));
    assert WorkerOk(s.w.jobs, p);
    assert Held(s.workers, p.job.id);
    WorkOnJobs(s.w, p, a);
    StepInv(s, Answered(i, a));
    assert PastPending(t, p.job.id);
    NeverDeliveredAgain(t, rest, p.job.id);
  }

  predicate Spent(s: Sys, j: JobId) { j in s.hist.jobIds && j !in s.reqs && !Queued(s.queue, j) }

  lemma StepSpent(s: Sys, st: Step, j: JobId)
    requires Keyed(s) && Enabled(s, st) && !st.Requeue? && Spent(s, j)
    ensures Spent(Apply(s, st), j)
  {
    match st
    case Serve(k, reply) =>
      assert s.reqs[k].job.id == k != j;
      SpentServe(s, k, reply, j);
    case Take(i) =>
      assert forall k :: 0 <= k < |s.queue| - 1 ==> s.queue[1..][k] == s.queue[k + 1];
    case _ =>
  }

  lemma SpentServe(s: Sys, k: JobId, reply: Reply, j: JobId)
    requires k in s.reqs && s.reqs[k].job.id == k != j && Spent(s, j)
    ensures Spent(ServeNext(s, s.reqs[k], reply), j)
  {
    ServeReach(s, s.reqs[k], reply);
    ServeAppends(s, s.reqs[k], reply);
  }

  lemma {:induction false} SpentStays(s: Sys, run: seq<Step>, j: JobId)
    requires Inv(s) && Feasible(s, run) && Spent(s, j) && forall k :: 0 <= k < |run| ==> !run[k].Requeue?
    ensures !Delivers(s, run, j)
    decreases |run|
  {
    if run != [] {
      StepInv(s, run[0]);
      StepSpent(s, run[0], j);
      assert |s.queue| > 0 ==> Queued(s.queue, s.queue[0].id);
      SpentStays(Apply(s, run[0]), run[1..], j);
    }
  }

  /** One process hands a job to at most one worker, whatever writes fail. */
  lemma OncePerProcess(s: Sys, i: nat, rest: seq<Step>)
    requires Inv(s) && Enabled(s, Take(i)) && Feasible(Apply(s, Take(i)), rest)
    requires forall k :: 0 <= k < |rest| ==> !rest[k].Requeue?
    ensures !Delivers(Apply(s, Take(i)), rest, s.queue[0].id)
  {
    StepInv(s, Take(i));
    TakenIsSpent(s, i);
    SpentStays(Apply(s, Take(i)), rest, s.queue[0].id);
  }

  lemma TakenIsSpent(s: Sys, i: nat)
    requires Inv(s) && i < |s.workers| && |s.queue| > 0
    ensures Spent(TakeJob(s, i), s.queue[0].id)
  {
    var j, t := s.queue[0].id, TakeJob(s, i);
    assert Image(s.w.jobs, s.queue[0]) && Queued(s.queue, j);
    assert forall k :: 0 <= k < |t.queue| ==> t.queue[k] == s.queue[k + 1];
  }
}
