/** Theorems about container rows and Docker containers over all runs. */
module ContainerTheorems {
  import opened Domain
  import opened Store
  import opened WorkerSteps
  import opened Protocol
  import opened Invariant
  import opened Lifecycle
  import opened Containers
  import opened Accounting

  ghost predicate Good(s: Sys) { Inv(s) && Life(s) && Sound(s) }

  lemma InitGood(s: Sys)
    requires Init(s)
    ensures Good(s)
  {
    forall c ensures ContainerSound(s, c) { }
  }

  lemma StepGood(s: Sys, st: Step)
    requires Good(s) && Enabled(s, st)
    ensures Good(Apply(s, st))
  {
    StepInv(s, st);
    StepLife(s, st);
    StepSound(s, st);
  }

  lemma {:induction false} RunGood(s: Sys, run: seq<Step>)
    requires Good(s) && Feasible(s, run)
    ensures Good(Final(s, run))
    decreases |run|
  {
    if run != [] {
      StepGood(s, run[0]);
      RunGood(Apply(s, run[0]), run[1..]);
    }
  }

  lemma ReachableGood(s: Sys)
    requires Reachable(s)
    ensures Good(s)
  {
    var s0, run :| Init(s0) && Feasible(s0, run) && s == Final(s0, run);
    InitGood(s0);
    RunGood(s0, run);
  }

  // ---------- which CREATE jobs have succeeded ----------

  /** The history tells of a CREATE job's success what its row tells, as long as the row is kept. */
  predicate Recorded(s: Sys) {
    forall j :: j in s.w.jobs && s.w.jobs[j].kind == CreateContainer ==>
      (s.w.jobs[j].status == JobSuccess <==> s.w.jobs[j].target in s.hist.born)
  }

  lemma WorkRecorded(s: Sys, i: nat, a: Answer)
    requires Good(s) && Recorded(s) && i < |s.workers| && s.workers[i].Busy?
    ensures Recorded(WorkOn(s, i, a))
  {
    var p, t := s.workers[i], WorkOn(s, i, a);
    assert WorkerOk(s.w.jobs, p);
    WorkOnJobs(s.w, p, a);
    forall j | j in t.w.jobs && t.w.jobs[j].kind == CreateContainer
      ensures t.w.jobs[j].status == JobSuccess <==> t.w.jobs[j].target in t.hist.born
    {
      assert JobSound(s, s.w.jobs[j]);
      if j != p.job.id { assert Coexist(s.hist, s.w.jobs[j], s.w.jobs[p.job.id]); }
    }
  }

  lemma ServeRecorded(s: Sys, j: JobId, reply: Reply)
    requires Good(s) && Recorded(s) && j in s.reqs
    ensures Recorded(ServeNext(s, s.reqs[j], reply))
  {
    ServeReach(s, s.reqs[j], reply);
    assert s.reqs[j].job.id == j && RequestOk(s.reqs[j], s.hist.rowIds) && RequestSound(s, s.reqs[j]);
  }

  lemma SweepRecorded(s: Sys, reply: Reply)
    requires Good(s) && Recorded(s)
    ensures Recorded(SweepUp(s, reply))
  {
    forall j | j in s.w.jobs && s.w.jobs[j].kind == CreateContainer && s.w.jobs[j].Active()
      ensures s.w.jobs[j].target !in s.hist.born
    {
      assert JobSound(s, s.w.jobs[j]);
    }
  }

  lemma StepRecorded(s: Sys, st: Step)
    requires Good(s) && Recorded(s) && Enabled(s, st)
    ensures Recorded(Apply(s, st))
  {
    match st
    case Serve(j, reply) => ServeRecorded(s, j, reply);
    case Answered(i, a) => WorkRecorded(s, i, a);
    case Recover(reply) => SweepRecorded(s, reply);
    case _ =>
  }

  lemma {:induction false} RunRecorded(s: Sys, run: seq<Step>)
    requires Good(s) && Recorded(s) && Feasible(s, run)
    ensures Recorded(Final(s, run))
    decreases |run|
  {
    if run != [] {
      StepGood(s, run[0]);
      StepRecorded(s, run[0]);
      RunRecorded(Apply(s, run[0]), run[1..]);
    }
  }

  /** A CREATE job is recorded as successful exactly if its container counts as born. */
  lemma BornIsRecorded(s: Sys, j: JobId)
    requires Reachable(s) && j in s.w.jobs && s.w.jobs[j].kind == CreateContainer
    ensures s.w.jobs[j].status == JobSuccess <==> s.w.jobs[j].target in s.hist.born
  {
    var s0, run :| Init(s0) && Feasible(s0, run) && s == Final(s0, run);
    InitGood(s0);
    RunRecorded(s0, run);
  }

  // ---------- Docker accounting ----------

  predicate SucceededFor(jobs: map<JobId, Job>, j: JobId, c: ContainerId) {
    j in jobs && jobs[j].target == c && jobs[j].kind == CreateContainer && jobs[j].status == JobSuccess
  }

  /** Over every run, crashes and failed writes included: a Docker container the manager made and
      has not removed is carried by its row once the CREATE job of an orderly container was
      recorded as successful (as its job row says, until the cleaner takes it); no two rows share a
      Docker ID; no two containers share a name. */
  lemma DockerAccounting(s: Sys)
    requires Reachable(s)
    ensures forall d, j :: d in s.w.docker && Orderly(s.hist, d.name) && SucceededFor(s.w.jobs, j, d.name) ==> Linked(s.w, d.name, d)
    ensures forall d :: d in s.w.docker && Orderly(s.hist, d.name) && d.name in s.hist.born ==> Linked(s.w, d.name, d)
    ensures forall c, e, d :: Linked(s.w, c, d) && Linked(s.w, e, d) ==> c == e
    ensures forall d, e :: d in s.w.docker && e in s.w.docker && d.name == e.name ==> d == e
  {
    ReachableGood(s);
    forall d | d in s.w.docker && Orderly(s.hist, d.name) && d.name in s.hist.born ensures Linked(s.w, d.name, d) {
      assert ContainerSound(s, d.name);
    }
    forall d: DockerId, j | SucceededFor(s.w.jobs, j, d.name) ensures d.name in s.hist.born { BornIsRecorded(s, j); }
    assert forall c, d :: Linked(s.w, c, d) ==> d.name == c;
  }

  // ---------- no forced removal of a running container ----------

  /** Under either lock, a DELETE job on an orderly container never removes a running Docker container,
      unless its guard passed on a status that was out of date, or the row trails Docker because a
      START job launched the container and did not hear of it, was cut off by a crash, or gave up
      writing its row. */
  lemma NoForcedRemoval(s: Sys, i: nat)
    requires Reachable(s) && i < |s.workers| && s.workers[i].Busy? && s.workers[i].pc.DockerRemove?
    requires var c := s.workers[i].job.target; Orderly(s.hist, c) && c !in s.hist.stale && c !in s.hist.drift
    ensures !IsRunning(s.w, s.workers[i].pc.d)
  {
    ReachableGood(s);
    var p := s.workers[i];
    WorkerKnows(s, i);
    assert WorkerOk(s.w.jobs, p) && ProcOk(s.w.made, p);
    assert JobSound(s, s.w.jobs[p.job.id]);
  }

  /** The row lock rules the first exception out: there, every guard passes on the row as it is. */
  lemma RowLockKeepsUpToDate(s: Sys)
    requires Reachable(s) && s.locking.rowLock
    ensures s.hist.stale == {} && s.hist.unchecked == {}
    ensures forall j :: j in s.reqs && Guarding(s.reqs[j]) ==>
              s.reqs[j].job.target in s.w.rows && s.w.rows[s.reqs[j].job.target] == s.reqs[j].stage.seen
  {
    ReachableGood(s);
    forall j | j in s.reqs && Guarding(s.reqs[j])
      ensures s.reqs[j].job.target in s.w.rows && s.w.rows[s.reqs[j].job.target] == s.reqs[j].stage.seen
    {
      assert RequestSound(s, s.reqs[j]);
    }
  }

  /** An orderly row that no START job is about to overwrite and that does not say Running carries
      no running Docker container; a row that says Created carries none at all. */
  lemma RestingRow(s: Sys, c: ContainerId)
    requires Reachable(s) && c in s.w.rows
    ensures s.w.rows[c].status == Created <==> s.w.rows[c].dockerId == None
    ensures s.w.rows[c].status != Dead
    ensures Orderly(s.hist, c) && c !in s.hist.drift && !LaunchedOn(s.workers, c) && s.w.rows[c].status == Exited ==>
              !IsRunning(s.w, s.w.rows[c].dockerId.value)
  {
    ReachableGood(s);
    assert ContainerSound(s, c);
  }
}
