/** Who can be affected: users only reach their own containers, the cleaner reaches only jobs no
    guard looks at, and the exceptional histories arise only where they say. */
module Frames {
  import opened Domain
  import opened Store
  import opened WorkerSteps
  import opened Protocol
  import opened Invariant
  import opened Lifecycle
  import opened Containers
  import opened Accounting
  import opened ContainerTheorems
  import opened RowHistory

  // ---------- ownership ----------

  /** The user on whose behalf the step is taken, if any. */
  function Actor(s: Sys, st: Step): Option<UserId>
    requires Enabled(s, st)
  {
    match st
    case Serve(j, _) => Some(s.reqs[j].job.user)
    case Answered(i, _) => Some(s.workers[i].job.user)
    case _ => None
  }

  /** A step changes a container row only on behalf of the row's owner. */
  lemma OwnershipFrame(s: Sys, st: Step, c: ContainerId)
    requires Reachable(s) && Enabled(s, st) && c in s.w.rows
    requires RowOf(Apply(s, st).w, c) != RowOf(s.w, c)
    ensures Actor(s, st) == Some(s.w.rows[c].owner)
  {
    ReachableGood(s);
    StepRow(s, st, c);
    assert WorkerOk(s.w.jobs, s.workers[st.i]);
    var job := s.w.jobs[s.workers[st.i].job.id];
    assert OwnedBy(s, job.target, job.user);
  }

  /** Each job, and each request past its guard, belongs to the owner of its container. */
  lemma JobsAreTheOwners(s: Sys, j: JobId)
    requires Reachable(s)
    ensures j in s.w.jobs && s.w.jobs[j].target in s.w.rows ==> s.w.rows[s.w.jobs[j].target].owner == s.w.jobs[j].user
    ensures j in s.reqs && Guarding(s.reqs[j]) && s.reqs[j].job.target in s.w.rows ==>
              s.w.rows[s.reqs[j].job.target].owner == s.reqs[j].job.user
  {
    ReachableInv(s);
    assert j in s.w.jobs ==> OwnedBy(s, s.w.jobs[j].target, s.w.jobs[j].user);
  }

  // ---------- the cleaner ----------

  predicate CleanerOnly(run: seq<Step>) { forall k :: 0 <= k < |run| ==> run[k].Clean? || run[k].Tick? }

  /** What clean-ups up to a time can do to the jobs: drop expired ones, and nothing else. */
  predicate Cleaned(jobs: map<JobId, Job>, jobs': map<JobId, Job>, now: Time) {
    && (forall j :: j in jobs' ==> j in jobs && jobs'[j] == jobs[j])
    && (forall j :: j in jobs && j !in jobs' ==> Expired(jobs[j], now) && jobs[j].error != Some(Interrupted))
  }

  lemma {:induction false} CleanerTrims(s: Sys, run: seq<Step>)
    requires Inv(s) && Feasible(s, run) && CleanerOnly(run)
    ensures Cleaned(s.w.jobs, Final(s, run).w.jobs, Final(s, run).clock) && s.clock <= Final(s, run).clock
    decreases |run|
  {
    if run != [] {
      StepInv(s, run[0]);
      CleanTick(s, run[0]);
      CleanerTrims(Apply(s, run[0]), run[1..]);
    }
  }

  /** After any cleaner ticks: every active job is still there, unchanged, so every guard's look-up
      answers as before; what is gone had ended, and had been completed longer ago than the
      retention; and a job failed by the start-up recovery, which has no completion time, stays. */
  lemma CleanerInvisible(s: Sys, run: seq<Step>)
    requires Reachable(s) && Feasible(s, run) && CleanerOnly(run)
    ensures var t := Final(s, run);
      && (forall c :: HasActiveJob(t.w, c) <==> HasActiveJob(s.w, c))
      && (forall j :: j in t.w.jobs ==> j in s.w.jobs && t.w.jobs[j] == s.w.jobs[j])
      && (forall j :: j in s.w.jobs && j !in t.w.jobs ==> Expired(s.w.jobs[j], t.clock))
      && (forall j :: j in s.w.jobs && s.w.jobs[j].error == Some(Interrupted) ==> j in t.w.jobs)
  {
    ReachableInv(s);
    CleanerTrims(s, run);
    SameAnswers(s.w, Final(s, run).w, Final(s, run).clock);
  }

  lemma SameAnswers(v: World, w: World, now: Time)
    requires Cleaned(v.jobs, w.jobs, now)
    ensures forall c :: HasActiveJob(w, c) <==> HasActiveJob(v, c)
  {
    forall c ensures HasActiveJob(w, c) <==> HasActiveJob(v, c) {
      if HasActiveJob(v, c) {
        var j :| j in v.jobs && v.jobs[j].target == c && v.jobs[j].Active();
        assert j in w.jobs;
      }
    }
  }

  lemma CleanTick(s: Sys, st: Step)
    requires Keyed(s) && Enabled(s, st) && (st.Clean? || st.Tick?)
    ensures Cleaned(s.w.jobs, Apply(s, st).w.jobs, s.clock) && s.clock <= Apply(s, st).clock
  {
    assert forall j :: j in s.w.jobs ==> Columns(s.w.jobs[j]);
    CleanedTick(s.w.jobs, s.clock);
  }

  lemma CleanedTick(jobs: map<JobId, Job>, now: Time)
    requires forall j :: j in jobs ==> Columns(jobs[j])
    ensures Cleaned(jobs, DeleteExpired(jobs, now), now) && Cleaned(jobs, jobs, now)
  {
  }

  // ---------- where the exceptional histories come from ----------

  /** The step lets a request of the container pass its guard's look-up of active jobs. */
  predicate Admits(s: Sys, st: Step, c: ContainerId)
    requires Enabled(s, st)
  {
    st.Serve? && s.reqs[st.id].stage.CheckJobs? && s.reqs[st.id].job.target == c
  }

  /** A container becomes split exactly when a guard admits a request while Create stands between its
      two writes; unchecked exactly when a guard passes on a failed look-up without a transaction;
      stale exactly when a guard passes although the row is gone or its status by now forbids it. */
  lemma ExceptionsArise(s: Sys, st: Step, c: ContainerId)
    requires Enabled(s, st)
    ensures var h, h' := s.hist, Apply(s, st).hist;
      && (c in h'.split <==> c in h.split || (Admits(s, st, c) && BetweenWrites(s, c)))
      && (c in h'.unchecked <==> c in h.unchecked || (Admits(s, st, c) && !st.reply.Done? && !s.locking.rowLock))
      && (c in h'.stale <==> c in h.stale || (Admits(s, st, c) && !Permits(s.w, s.reqs[st.id].job.kind, c)))
  {
    match st
    case Serve(j, reply) => ServeExceptions(s, s.reqs[j], reply, c);
    case Answered(i, a) => assert Record(s.hist, s.w, s.workers[i], a, WorkOn(s, i, a).workers[i]) == WorkOn(s, i, a).hist;
    case _ =>
  }

  lemma ServeExceptions(s: Sys, r: Request, reply: Reply, c: ContainerId)
    requires CanServe(s, r, reply)
    ensures var h, h' := s.hist, ServeNext(s, r, reply).hist;
      var passes := r.stage.CheckJobs? && r.job.target == c;
      && (c in h'.split <==> c in h.split || (passes && BetweenWrites(s, c)))
      && (c in h'.unchecked <==> c in h.unchecked || (passes && !reply.Done?))
      && (c in h'.stale <==> c in h.stale || (passes && !Permits(s.w, r.job.kind, c)))
  {
  }

  /** The step is the answer to this call of a worker on the container. */
  predicate Hears(s: Sys, st: Step, c: ContainerId)
    requires Enabled(s, st)
  {
    st.Answered? && s.workers[st.i].job.target == c
  }

  /** The last try of a START job's row write is not confirmed. */
  predicate GivesUp(w: World, p: Proc, reply: Reply) {
    Launched(p) && p.pc.WriteRow? && p.pc.tries + 1 >= UPDATE_RETRIES && !Confirmed(w, p.pc.c.id, reply)
  }

  /** Docker starts the container, and its answer is lost. */
  predicate StartsUnheard(w: World, p: Proc, reply: Reply) { p.Busy? && p.pc.DockerStart? && p.pc.d in w.docker && reply.Lost? }

  /** Docker creates a container for the job, and its answer is lost. */
  predicate CreatesUnheard(w: World, p: Proc, reply: Reply) {
    p.Busy? && p.pc.DockerCreate? && reply.Lost? && forall d :: d in w.docker ==> d.name != p.pc.c.id
  }

  /** The removal that is to clean up after a failed first start has no effect. */
  predicate ClearsNothing(w: World, p: Proc, reply: Reply) { p.Busy? && p.pc.Cleanup? && p.pc.d in w.docker && reply.Refused? }

  /** The last try of a CREATE job's row write is not confirmed, and the row, if there is one, does not carry the
      job's Docker container: neither this try nor an earlier one took effect. */
  predicate NeverWritten(w: World, p: Proc, reply: Reply) {
    && p.Busy? && p.job.kind == CreateContainer && p.pc.WriteRow? && p.pc.tries + 1 >= UPDATE_RETRIES
    && p.pc.c.dockerId.Some? && p.pc.c.dockerId.value in w.docker
    && (p.job.target in w.rows ==> reply.Refused? && w.rows[p.job.target].dockerId != p.pc.c.dockerId)
  }

  /** A crash cuts a CREATE job off between Docker's creation and the row write that takes effect. */
  predicate CutsOff(s: Sys, c: ContainerId) {
    exists i :: 0 <= i < |s.workers| && LeavesOrphan(s.w, s.workers[i]) && s.workers[i].job.target == c
  }

  predicate Repairs(w: World, p: Proc, reply: Reply) { p.Busy? && p.pc.WriteRow? && Confirmed(w, p.pc.c.id, reply) }

  /** A container begins to drift exactly when a crash cuts off, or the third unconfirmed write ends, a
      START job whose Docker container was launched, or Docker's answer to its launch is lost, and it stops
      drifting exactly at a confirmed row write; it is blurred exactly when a row write hides its success behind an error; and it is born
      exactly when the SUCCESS of its CREATE job is recorded. */
  lemma WorkExceptionsArise(s: Sys, st: Step, c: ContainerId)
    requires Enabled(s, st)
    ensures var h, h' := s.hist, Apply(s, st).hist;
      && (c in h'.drift <==>
            || (st.Crash? && LaunchedOn(s.workers, c))
            || (Hears(s, st, c) && GivesUp(s.w, s.workers[st.i], st.a.reply))
            || (Hears(s, st, c) && StartsUnheard(s.w, s.workers[st.i], st.a.reply))
            || (c in h.drift && !(Hears(s, st, c) && Repairs(s.w, s.workers[st.i], st.a.reply))))
      && (c in h'.blurred <==>
            || c in h.blurred
            || (Hears(s, st, c) && st.a.reply.Lost? && (s.workers[st.i].pc.WriteRow? || s.workers[st.i].pc.DropRow?)))
      && (c in h'.born <==>
            || c in h.born
            || (Hears(s, st, c) && st.a.reply.TookEffect() && s.workers[st.i].pc == Finish(None)
                && s.workers[st.i].job.kind == CreateContainer))
  {
    match st
    case Serve(j, reply) => ServeReach(s, s.reqs[j], reply);
    case Answered(i, a) => WorkExceptions(s, i, a, c);
    case Crash => assert c in CrashedStarts(s) <==> LaunchedOn(s.workers, c);
    case _ =>
  }

  lemma WorkExceptions(s: Sys, i: nat, a: Answer, c: ContainerId)
    requires i < |s.workers| && s.workers[i].Busy?
    ensures var h, h', p := s.hist, WorkOn(s, i, a).hist, s.workers[i];
      && (c in h'.drift <==>
            || (p.job.target == c && (GivesUp(s.w, p, a.reply) || StartsUnheard(s.w, p, a.reply)))
            || (c in h.drift && !(p.job.target == c && Repairs(s.w, p, a.reply))))
      && (c in h'.blurred <==> c in h.blurred || (p.job.target == c && a.reply.Lost? && (p.pc.WriteRow? || p.pc.DropRow?)))
      && (c in h'.born <==>
            c in h.born || (p.job.target == c && a.reply.TookEffect() && p.pc == Finish(None) && p.job.kind == CreateContainer))
  {
  }

  /** A container becomes an orphan of its row exactly when Docker's answer to its creation is lost, when the
      clean-up after its failed start has no effect, when its row write is given up without effect, or when a
      crash comes in between; and it stays one. */
  lemma OrphansArise(s: Sys, st: Step, c: ContainerId)
    requires Good(s) && Enabled(s, st)
    ensures c in Apply(s, st).hist.orphans <==>
              || c in s.hist.orphans
              || (st.Crash? && CutsOff(s, c))
              || (Hears(s, st, c) && CreatesUnheard(s.w, s.workers[st.i], st.a.reply))
              || (Hears(s, st, c) && ClearsNothing(s.w, s.workers[st.i], st.a.reply))
              || (Hears(s, st, c) && NeverWritten(s.w, s.workers[st.i], st.a.reply))
  {
    match st
    case Serve(j, reply) => ServeReach(s, s.reqs[j], reply);
    case Answered(i, a) =>
      assert ProcOk(s.w.made, s.workers[i]);
      WorkOrphans(s, i, a, c);
    case Crash => assert c in CrashedCreates(s) <==> CutsOff(s, c);
    case _ =>
  }

  lemma WorkOrphans(s: Sys, i: nat, a: Answer, c: ContainerId)
    requires i < |s.workers| && s.workers[i].Busy? && ProcOk(s.w.made, s.workers[i])
    ensures var h', p := WorkOn(s, i, a).hist, s.workers[i];
      c in h'.orphans <==>
        || c in s.hist.orphans
        || (p.job.target == c && (CreatesUnheard(s.w, p, a.reply) || ClearsNothing(s.w, p, a.reply) || NeverWritten(s.w, p, a.reply)))
  {
  }

  /** The request's hand-over to the channel fails, or its job insert takes effect without being confirmed. */
  predicate Loses(s: Sys, r: Request, reply: Reply) {
    || (r.stage.Send? && !(reply.Done? && |s.queue| < CHANNEL_CAPACITY))
    || ((r.stage.Insert? || r.stage.NewJob?) && reply.Lost?)
  }

  predicate Strands(s: Sys, st: Step, j: JobId)
    requires Enabled(s, st)
  {
    st.Serve? && s.reqs[st.id].job.id == j && Loses(s, s.reqs[st.id], st.reply)
  }

  predicate FailsToWrite(s: Sys, st: Step, j: JobId)
    requires Enabled(s, st)
  {
    st.Answered? && s.workers[st.i].job.id == j && st.a.reply.Refused?
  }

  /** A job is stranded exactly when its hand-over fails, its insert loses its confirmation, or start-up
      does not queue its PENDING row, and a crash frees it; it is unmarked from a failed RUNNING write
      until the next crash; it is stuck from a failed final write until the next recovery, which leaves
      stuck just the rows that it fails to sweep. */
  lemma JobExceptionsArise(s: Sys, st: Step, j: JobId)
    requires Enabled(s, st)
    ensures var h, t := s.hist, Apply(s, st);
      && (j in t.hist.stranded <==>
            if st.Crash? then false
            else if st.Requeue? then j in PendingJobs(s.w.jobs) && j !in Ids(t.queue)
            else j in h.stranded || Strands(s, st, j))
      && (j in t.hist.unmarked <==>
            !st.Crash? && (j in h.unmarked || (FailsToWrite(s, st, j) && s.workers[st.i].pc.Mark?)))
      && (j in t.hist.stuck <==>
            if st.Recover? then j in RunningJobs(s.w.jobs) && st.reply.Refused?
            else j in h.stuck || (FailsToWrite(s, st, j) && s.workers[st.i].pc.Finish?))
  {
    match st
    case Serve(k, reply) => ServeStrands(s, s.reqs[k], reply, j);
    case Answered(i, a) => WorkStrands(s, i, a, j);
    case _ =>
  }

  lemma ServeStrands(s: Sys, r: Request, reply: Reply, j: JobId)
    ensures var h, h' := s.hist, ServeNext(s, r, reply).hist;
      && h'.unmarked == h.unmarked && h'.stuck == h.stuck
      && (j in h'.stranded <==> j in h.stranded || (r.job.id == j && Loses(s, r, reply)))
  {
    match r.stage
    case Insert(_) => SaveStrands(s, r, reply, j);
    case NewJob => SaveStrands(s, r, reply, j);
    case _ =>
  }

  lemma SaveStrands(s: Sys, r: Request, reply: Reply, j: JobId)
    requires r.stage.Insert? || r.stage.NewJob?
    ensures var h, h' := s.hist, SaveJob(s, r, reply).hist;
      && h'.unmarked == h.unmarked && h'.stuck == h.stuck
      && (j in h'.stranded <==> j in h.stranded || (r.job.id == j && reply.Lost?))
  {
  }

  lemma WorkStrands(s: Sys, i: nat, a: Answer, j: JobId)
    requires i < |s.workers| && s.workers[i].Busy?
    ensures var h, h', p := s.hist, WorkOn(s, i, a).hist, s.workers[i];
      && h'.stranded == h.stranded
      && (j in h'.unmarked <==> j in h.unmarked || (p.job.id == j && a.reply.Refused? && p.pc.Mark?))
      && (j in h'.stuck <==> j in h.stuck || (p.job.id == j && a.reply.Refused? && p.pc.Finish?))
  {
  }
}
