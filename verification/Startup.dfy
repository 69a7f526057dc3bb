/** Start-up and the cleaner as they are written. */
module Startup {
  import opened Domain
  import opened Store
  import opened Protocol
  import opened Solo
  import opened Repositories
  import opened Channel
  import opened Environments

  /** Recovery touches no PENDING row: it leaves the query's result alone. */
  lemma RecoveryKeepsListing(jobs: map<JobId, Job>, listing: seq<Job>)
    requires IsListing(jobs, listing)
    ensures IsListing(Protocol.MarkRunningAsFailed(jobs), listing)
  {
    var jobs' := Protocol.MarkRunningAsFailed(jobs);
    forall j ensures j in PendingJobs(jobs') <==> j in PendingJobs(jobs) { }
  }

  /** The two start-up steps of the protocol, one after the other. */
  lemma StartsUp(s: Sys, recovered: Reply, cursor: seq<Job>, read: nat) returns (t: Sys)
    requires s.phase == Down && IsListing(s.w.jobs, cursor) && read <= |cursor|
    ensures t == Boot(SweepUp(s, recovered), Fitting(cursor[..read])) && From(s, t)
  {
    RecoveryKeepsListing(s.w.jobs, cursor);
    FromItself(s);
    ReachMore(s, s, Recover(recovered));
    ReachMore(s, SweepUp(s, recovered), Requeue(cursor, read));
    t := Apply(SweepUp(s, recovered), Requeue(cursor, read));
  }

  /** Queues jobs in order until the channel is full. */
  method FillChannel(pending: seq<Job>) returns (jobChan: JobChannel)
    ensures fresh(jobChan) && jobChan.Valid() && jobChan.items == Fitting(pending)
  {
    jobChan := new JobChannel();
    var k := 0;
    while k < |pending|
      invariant k <= |pending| && k <= CHANNEL_CAPACITY && jobChan.Valid() && fresh(jobChan)
      invariant jobChan.items == pending[..k]
    {
      var sent := jobChan.TrySend(pending[k]);
      if !sent { break; }
      k := k + 1;
    }
    assert k == |pending| ==> pending[..k] == pending;
  }

  /** What the recovery makes of the job table: no row says RUNNING any more; those that did are FAILED as
      interrupted, with the completion time they had; the others are as they were. */
  predicate Swept(jobs: map<JobId, Job>, jobs': map<JobId, Job>) {
    && jobs'.Keys == jobs.Keys
    && forall j :: j in jobs ==>
         && jobs'[j].status != JobRunning
         && (jobs[j].status != JobRunning ==> jobs'[j] == jobs[j])
         && (jobs[j].status == JobRunning ==>
               && jobs'[j].SameJob(jobs[j]) && jobs'[j].status == JobFailed
               && jobs'[j].error == Some(Interrupted) && jobs'[j].completedAt == jobs[j].completedAt)
  }

  /** Marks RUNNING jobs as FAILED, reads the PENDING ones and queues what the channel takes. The errors
      of both statements are ignored. It is the start-up of the protocol under the database's reply to the
      recovery, and when the query works the new channel holds the oldest PENDING jobs that fit. */
  method RecoverAndRequeue(jobRepo: JobRepository, cursor: seq<Job>, readable: nat, garbled: bool, ghost s: Sys)
    returns (jobChan: JobChannel, ghost t: Sys)
    requires IsListing(jobRepo.jobs, cursor) && s.phase == Down && s.w.jobs == jobRepo.jobs
    modifies jobRepo, jobRepo.env
    ensures fresh(jobChan) && jobChan.Valid()
    ensures t == Boot(SweepUp(s, old(jobRepo.env.Next(0))), jobChan.items)
    ensures From(s, t) && t.phase == Up && t.w.jobs == jobRepo.jobs && t.queue == jobChan.items
    ensures old(jobRepo.env.Next(0)).TookEffect() ==> Swept(old(jobRepo.jobs), jobRepo.jobs)
    ensures !old(jobRepo.env.Next(0)).TookEffect() ==> jobRepo.jobs == old(jobRepo.jobs)
    ensures jobChan.items == Fitting(if readable >= |cursor| then cursor else if garbled then [] else cursor[..readable])
  {
    var recovered := jobRepo.MarkRunningAsFailed();
    RecoveryKeepsListing(s.w.jobs, cursor);
    var pending, ok := jobRepo.FindPendingJobs(cursor, readable, garbled);
    jobChan := FillChannel(pending);
    assert cursor[..|pending|] == pending;
    t := StartsUp(s, recovered, cursor, |pending|);
  }

  /** The k-th of these clean-ups takes effect when the job ended more than seven days ago. */
  predicate CleanedAt(env: Environment, from: nat, ticks: seq<Time>, k: nat, job: Job) {
    && k < |ticks| && env.reactions(from + k).reply.TookEffect()
    && (job.status == JobSuccess || job.status == JobFailed)
    && job.completedAt.Some? && ticks[k] > job.completedAt.value + 7 * 24 * 3600
  }

  /** The cleaner, for a finite number of ticks of its timer. Failed clean-ups are only logged. A row goes
      if and only if it has expired at a tick whose clean-up takes effect; the others are as they were. */
  method CleanOnTicks(jobRepo: JobRepository, ticks: seq<Time>)
    modifies jobRepo, jobRepo.env
    ensures forall j :: j in jobRepo.jobs ==> j in old(jobRepo.jobs) && jobRepo.jobs[j] == old(jobRepo.jobs)[j]
    ensures forall j :: j in old(jobRepo.jobs) ==>
              (j !in jobRepo.jobs <==> exists k :: CleanedAt(jobRepo.env, old(jobRepo.env.asked), ticks, k, old(jobRepo.jobs)[j]))
  {
    ghost var env, from, jobs := jobRepo.env, jobRepo.env.asked, jobRepo.jobs;
    for i := 0 to |ticks|
      invariant env.asked == from + i
      invariant forall j :: j in jobRepo.jobs ==> j in jobs && jobRepo.jobs[j] == jobs[j]
      invariant forall j :: j in jobs ==> (j !in jobRepo.jobs <==> exists k: nat :: k < i && CleanedAt(env, from, ticks, k, jobs[j]))
    {
      ghost var before := jobRepo.jobs;
      var _, reply := jobRepo.DeleteExpired(ticks[i]);
      forall j | j in jobs ensures j !in jobRepo.jobs <==> exists k: nat :: k < i + 1 && CleanedAt(env, from, ticks, k, jobs[j]) {
        if j in before && j !in jobRepo.jobs { assert CleanedAt(env, from, ticks, i, jobs[j]); }
        assert j in before && CleanedAt(env, from, ticks, i, jobs[j]) ==> j !in jobRepo.jobs;
      }
    }
  }
}
