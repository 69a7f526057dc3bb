/** Where pending and running jobs are: no PENDING row is lost or doubled between the channel, the
    workers and the requests, and RUNNING rows never outnumber the pool. */
module Conservation {
  import opened Domain
  import opened Store
  import opened WorkerSteps
  import opened Protocol
  import opened Invariant
  import opened Jobs

  predicate AtMark(workers: seq<Proc>, j: JobId) {
    exists i :: 0 <= i < |workers| && workers[i].Busy? && workers[i].pc.Mark? && workers[i].job.id == j
  }

  predicate AtSend(reqs: map<JobId, Request>, j: JobId) { j in reqs && reqs[j].stage.Send? }

  function One(b: bool): nat { if b then 1 else 0 }

  /** In how many places a job is: in the channel, with a worker that has not marked it yet, with a
      request that has not handed it over yet, stranded, or left behind by a failed RUNNING write. */
  function Places(s: Sys, j: JobId): nat {
    One(Queued(s.queue, j)) + One(AtMark(s.workers, j)) + One(AtSend(s.reqs, j))
    + One(j in s.hist.stranded) + One(j in s.hist.unmarked)
  }

  predicate Strays(s: Sys) {
    && (forall j :: j in s.hist.stranded ==>
          j in PendingJobs(s.w.jobs) && j !in s.reqs && !Queued(s.queue, j) && !Held(s.workers, j) && j !in s.hist.unmarked)
    && (forall j :: j in s.hist.unmarked ==>
          j in s.hist.jobIds && j !in s.reqs && !Queued(s.queue, j) && !AtMark(s.workers, j))
  }

  predicate Conserved(s: Sys) {
    && (s.phase == Up ==> Strays(s) && forall j :: j in PendingJobs(s.w.jobs) ==> Places(s, j) >= 1)
    && (s.phase != Up ==> s.hist.unmarked == {})
    && (forall j :: j in RunningJobs(s.w.jobs) ==> j in s.hist.stuck || s.phase == Down || Held(s.workers, j))
  }

  lemma MarkHeld(workers: seq<Proc>, j: JobId)
    ensures AtMark(workers, j) ==> Held(workers, j)
  {
  }

  lemma WorkStrays(s: Sys, i: nat, a: Answer)
    requires Keyed(s) && Placed(s) && Conserved(s) && s.phase == Up && i < |s.workers| && s.workers[i].Busy?
    ensures Strays(WorkOn(s, i, a))
  {
    var t := WorkOn(s, i, a);
    WorkOnProc(s.w, s.workers[i], a);
    assert WorkerOk(s.w.jobs, s.workers[i]);
    WorkStranded(s, i, a);
    forall j | j in t.hist.unmarked ensures j in s.hist.jobIds && j !in t.reqs && !Queued(t.queue, j) && !AtMark(t.workers, j) {
      HeldStep(s.workers, i, t.workers[i], j);
      UnmarkedMoves(s, i, a, j);
    }
  }

  lemma WorkStranded(s: Sys, i: nat, a: Answer)
    requires Keyed(s) && Placed(s) && Strays(s) && i < |s.workers| && s.workers[i].Busy?
    ensures var t := WorkOn(s, i, a);
      forall j :: j in t.hist.stranded ==>
        j in PendingJobs(t.w.jobs) && j !in t.reqs && !Queued(t.queue, j) && !Held(t.workers, j) && j !in t.hist.unmarked
  {
    var p, t := s.workers[i], WorkOn(s, i, a);
    WorkOnJobs(s.w, p, a);
    WorkOnProc(s.w, p, a);
    assert Held(s.workers, p.job.id);
    forall j | j in t.hist.stranded ensures j in PendingJobs(t.w.jobs) && !Held(t.workers, j) && j !in t.hist.unmarked {
      HeldStep(s.workers, i, t.workers[i], j);
    }
  }

  lemma UnmarkedMoves(s: Sys, i: nat, a: Answer, j: JobId)
    requires Keyed(s) && Placed(s) && i < |s.workers| && s.workers[i].Busy?
    requires j == s.workers[i].job.id || !AtMark(s.workers, j)
    ensures !AtMark(WorkOn(s, i, a).workers, j)
    ensures j == s.workers[i].job.id ==> j !in s.reqs && !Queued(s.queue, j)
  {
    var p, t := s.workers[i], WorkOn(s, i, a);
    WorkOnProc(s.w, p, a);
    assert Held(s.workers, p.job.id);
    assert forall k :: 0 <= k < |s.workers| && k != i ==> t.workers[k] == s.workers[k];
  }

  lemma WorkPlaces(s: Sys, i: nat, a: Answer, j: JobId)
    requires Keyed(s) && Placed(s) && Conserved(s) && s.phase == Up && i < |s.workers| && s.workers[i].Busy?
    requires j in PendingJobs(WorkOn(s, i, a).w.jobs)
    ensures Places(WorkOn(s, i, a), j) >= 1
  {
    var p, t := s.workers[i], WorkOn(s, i, a);
    WorkOnJobs(s.w, p, a);
    assert WorkerOk(s.w.jobs, p);
    assert Places(s, j) >= 1;
    if AtMark(s.workers, j) && j != p.job.id {
      var k :| 0 <= k < |s.workers| && s.workers[k].Busy? && s.workers[k].pc.Mark? && s.workers[k].job.id == j;
      assert t.workers[k] == s.workers[k];
    }
  }

  lemma WorkRunning(s: Sys, i: nat, a: Answer, j: JobId)
    requires Placed(s) && Conserved(s) && s.phase == Up && i < |s.workers| && s.workers[i].Busy?
    requires j in RunningJobs(WorkOn(s, i, a).w.jobs)
    ensures j in WorkOn(s, i, a).hist.stuck || Held(WorkOn(s, i, a).workers, j)
  {
    var p, t := s.workers[i], WorkOn(s, i, a);
    WorkOnJobs(s.w, p, a);
    WorkOnProc(s.w, p, a);
    assert WorkerOk(s.w.jobs, p);
    if j == p.job.id {
      assert t.workers[i].Busy? ==> Held(t.workers, j);
    } else if Held(s.workers, j) {
      var k :| 0 <= k < |s.workers| && s.workers[k].Busy? && s.workers[k].job.id == j;
      assert t.workers[k] == s.workers[k];
    }
  }

  lemma WorkConserved(s: Sys, i: nat, a: Answer)
    requires Keyed(s) && Placed(s) && Conserved(s) && s.phase == Up && i < |s.workers| && s.workers[i].Busy?
    ensures Conserved(WorkOn(s, i, a))
  {
    var t := WorkOn(s, i, a);
    WorkStrays(s, i, a);
    forall j | j in PendingJobs(t.w.jobs) ensures Places(t, j) >= 1 { WorkPlaces(s, i, a, j); }
    forall j | j in RunningJobs(t.w.jobs) ensures j in t.hist.stuck || Held(t.workers, j) { WorkRunning(s, i, a, j); }
  }

  lemma TakeConserved(s: Sys, i: nat)
    requires Keyed(s) && Placed(s) && Conserved(s) && s.phase == Up && i < |s.workers| && s.workers[i].Idle? && |s.queue| > 0
    ensures Conserved(TakeJob(s, i))
  {
    var t, job := TakeJob(s, i), s.queue[0];
    assert Queued(s.queue, job.id);
    assert t.workers[i].Busy? && t.workers[i].job == job && AtMark(t.workers, job.id);
    forall j | Queued(t.queue, j) ensures Queued(s.queue, j) {
      var k :| 0 <= k < |t.queue| && t.queue[k].id == j;
      assert s.queue[k + 1].id == j;
    }
    forall j | j != job.id
      ensures Held(t.workers, j) <==> Held(s.workers, j)
      ensures AtMark(t.workers, j) <==> AtMark(s.workers, j)
      ensures Queued(s.queue, j) ==> Queued(t.queue, j)
    {
      TakeOthers(s, i, j);
    }
  }

  lemma TakeOthers(s: Sys, i: nat, j: JobId)
    requires i < |s.workers| && s.workers[i].Idle? && |s.queue| > 0 && j != s.queue[0].id
    ensures var t := TakeJob(s, i);
      && (Held(t.workers, j) <==> Held(s.workers, j))
      && (AtMark(t.workers, j) <==> AtMark(s.workers, j))
      && (Queued(s.queue, j) ==> Queued(t.queue, j))
  {
    var t := TakeJob(s, i);
    assert forall k :: 0 <= k < |s.workers| && k != i ==> t.workers[k] == s.workers[k];
    if Queued(s.queue, j) {
      var k :| 0 <= k < |s.queue| && s.queue[k].id == j;
      assert t.queue[k - 1].id == j;
    }
  }

  lemma PublishConserved(s: Sys, r: Request)
    requires Keyed(s) && Placed(s) && Conserved(s) && s.phase == Up
    requires r.job.id in s.reqs && s.reqs[r.job.id] == r && (r.stage.Insert? || r.stage.NewJob?)
    ensures Conserved(Publish(s, r))
  {
    var t := Publish(s, r);
    assert RequestOk(r, s.hist.rowIds);
    forall j | j in PendingJobs(t.w.jobs) ensures Places(t, j) >= 1 {
      if j != r.job.id { assert Places(s, j) >= 1; }
    }
  }

  /** A request that leaves without having published its job, or strands it. */
  lemma LeaveConserved(s: Sys, r: Request, strand: bool)
    requires Keyed(s) && Placed(s) && Conserved(s) && s.phase == Up
    requires r.job.id in s.reqs && (strand <==> s.reqs[r.job.id].stage.Send?)
    ensures Conserved(if strand then Strand(Leave(s, r), r.job.id) else Leave(s, r))
  {
    var t := if strand then Strand(Leave(s, r), r.job.id) else Leave(s, r);
    assert strand ==> Image(s.w.jobs, s.reqs[r.job.id].job);
    forall j | j in PendingJobs(t.w.jobs) ensures Places(t, j) >= 1 {
      assert Places(s, j) >= 1;
    }
  }

  lemma SendConserved(s: Sys, r: Request)
    requires Keyed(s) && Placed(s) && Conserved(s) && s.phase == Up
    requires r.job.id in s.reqs && s.reqs[r.job.id] == r && r.stage.Send?
    ensures Conserved(Enqueue(Leave(s, r), r.job))
  {
    var t := Enqueue(Leave(s, r), r.job);
    forall j ensures Queued(t.queue, j) <==> Queued(s.queue, j) || j == r.job.id {
      assert t.queue[|s.queue|].id == r.job.id;
      if Queued(s.queue, j) {
        var k :| 0 <= k < |s.queue| && s.queue[k].id == j;
        assert t.queue[k].id == j;
      }
    }
    forall j | j in PendingJobs(t.w.jobs) ensures Places(t, j) >= 1 {
      assert Places(s, j) >= 1;
    }
  }

  /** Steps that move requests between stages before Send, or nothing the jobs depend on. */
  lemma SameConserved(s: Sys, t: Sys)
    requires Conserved(s) && t.w.jobs == s.w.jobs && t.queue == s.queue && t.workers == s.workers && t.phase == s.phase
    requires forall j :: j in t.reqs && j !in s.reqs ==> j !in s.hist.jobIds && j !in s.w.jobs
    requires forall j :: AtSend(s.reqs, j) ==> AtSend(t.reqs, j)
    requires s.hist.jobIds <= t.hist.jobIds
    requires t.hist.stranded == s.hist.stranded && t.hist.unmarked == s.hist.unmarked && t.hist.stuck == s.hist.stuck
    ensures Conserved(t)
  {
    forall j | j in PendingJobs(t.w.jobs) && t.phase == Up ensures Places(t, j) >= 1 {
      assert Places(s, j) >= 1;
    }
  }

  lemma CleanConserved(s: Sys, now: Time)
    requires Conserved(s)
    ensures Conserved(s.(w := s.w.(jobs := DeleteExpired(s.w.jobs, now))))
  {
    var t := s.(w := s.w.(jobs := DeleteExpired(s.w.jobs, now)));
    forall j | j in PendingJobs(t.w.jobs) && t.phase == Up ensures Places(t, j) >= 1 {
      assert Places(s, j) >= 1;
    }
  }

  lemma BootConserved(s: Sys, queue: seq<Job>)
    requires Placed(s) && Conserved(s) && s.phase == Swept
    ensures Conserved(Boot(s, queue))
  {
    var t := Boot(s, queue);
    forall j ensures Queued(queue, j) <==> j in Ids(queue) {
    }
    forall j | j in PendingJobs(t.w.jobs) ensures Places(t, j) >= 1 {
    }
  }

  lemma SaveJobConserved(s: Sys, r: Request, reply: Reply)
    requires Inv(s) && Conserved(s) && s.phase == Up
    requires r.job.id in s.reqs && s.reqs[r.job.id] == r && (r.stage.Insert? || r.stage.NewJob?)
    ensures Conserved(SaveJob(s, r, reply))
  {
    if reply.Refused? {
      LeaveConserved(s, r, false);
    } else {
      PublishConserved(s, r);
      PublishInv(s, r);
      if reply.Lost? { LeaveConserved(Publish(s, r), r, true); }
    }
  }

  lemma SaveRowConserved(s: Sys, r: Request, reply: Reply)
    requires Inv(s) && Conserved(s) && s.phase == Up && r.job.id in s.reqs && s.reqs[r.job.id] == r && r.stage.NewRow?
    ensures Conserved(SaveRow(s, r, r.stage.row, reply))
  {
    if reply.Refused? {
      LeaveConserved(s, r, false);
    } else {
      SameConserved(s, Found(s, r, r.stage.row));
      FoundInv(s, r);
      if reply.Lost? { LeaveConserved(Found(s, r, r.stage.row), r, false); }
    }
  }

  lemma SendStageConserved(s: Sys, r: Request, reply: Reply)
    requires Keyed(s) && Placed(s) && Conserved(s) && s.phase == Up
    requires r.job.id in s.reqs && s.reqs[r.job.id] == r && r.stage.Send?
    ensures Conserved(ServeNext(s, r, reply))
  {
    if reply.Done? && |s.queue| < CHANNEL_CAPACITY { SendConserved(s, r); } else { LeaveConserved(s, r, true); }
  }

  lemma GuardConserved(s: Sys, r: Request, reply: Reply)
    requires Keyed(s) && Conserved(s) && r.job.id in s.reqs && s.reqs[r.job.id] == r && CanServe(s, r, reply)
    requires r.stage.AwaitMutex? || r.stage.AwaitRow? || r.stage.CheckJobs?
    ensures Conserved(ServeNext(s, r, reply))
  {
    SameConserved(s, ServeNext(s, r, reply));
  }

  lemma ServeConserved(s: Sys, j: JobId, reply: Reply)
    requires Inv(s) && Conserved(s) && s.phase == Up && j in s.reqs && CanServe(s, s.reqs[j], reply)
    ensures Conserved(ServeNext(s, s.reqs[j], reply))
  {
    assert s.reqs[j].job.id == j;
    match s.reqs[j].stage
    case Insert(_) => SaveJobConserved(s, s.reqs[j], reply);
    case NewJob => SaveJobConserved(s, s.reqs[j], reply);
    case NewRow(_) => SaveRowConserved(s, s.reqs[j], reply);
    case Send => SendStageConserved(s, s.reqs[j], reply);
    case _ => GuardConserved(s, s.reqs[j], reply);
  }

  lemma CallConserved(s: Sys, r: Request, rowIds: set<ContainerId>)
    requires Keyed(s) && Placed(s) && Conserved(s) && r.job.id !in s.hist.jobIds && !r.stage.Send? && s.phase == Up
    ensures Conserved(Call(s, r, rowIds))
  {
    SameConserved(s, Call(s, r, rowIds));
  }

  lemma FallConserved(s: Sys)
    requires Conserved(s)
    ensures Conserved(Fall(s))
  {
  }

  lemma SweepConserved(s: Sys, reply: Reply)
    requires Conserved(s) && s.phase == Down
    ensures Conserved(SweepUp(s, reply))
  {
  }

  lemma StepConserved(s: Sys, st: Step)
    requires Inv(s) && Conserved(s) && Enabled(s, st)
    ensures Conserved(Apply(s, st))
  {
    match st
    case Serve(j, reply) => ServeConserved(s, j, reply);
    case Quit(j) =>
      assert s.reqs[j].job.id == j;
      LeaveConserved(s, s.reqs[j], false);
    case Take(i) => TakeConserved(s, i);
    case Answered(i, a) => WorkConserved(s, i, a);
    case Clean(_) => CleanConserved(s, s.clock);
    case Crash => FallConserved(s);
    case Recover(reply) => SweepConserved(s, reply);
    case Requeue(listing, read) => BootConserved(s, Fitting(listing[..read]));
    case CallGuarded(job) => CallConserved(s, Request(job, AwaitMutex), s.hist.rowIds);
    case CallCreate(job, row) => CallConserved(s, Request(job, NewRow(row)), s.hist.rowIds + {row.id});
    case _ => SameConserved(s, Apply(s, st));
  }

  lemma {:induction false} RunConserved(s: Sys, run: seq<Step>)
    requires Inv(s) && Conserved(s) && Feasible(s, run)
    ensures Conserved(Final(s, run))
    decreases |run|
  {
    if run != [] {
      StepInv(s, run[0]);
      StepConserved(s, run[0]);
      RunConserved(Apply(s, run[0]), run[1..]);
    }
  }

  lemma ReachableConserved(s: Sys)
    requires Reachable(s)
    ensures Inv(s) && Conserved(s)
  {
    ReachableInv(s);
    var s0, run :| Init(s0) && Feasible(s0, run) && s == Final(s0, run);
    InitInv(s0);
    assert Conserved(s0);
    RunConserved(s0, run);
  }

  /** While the process is up, every PENDING row is in exactly one place; it is in the channel at
      most once, and the channel never holds more than its capacity. */
  lemma PendingInOnePlace(s: Sys)
    requires Reachable(s)
    ensures s.phase == Up ==> forall j :: j in PendingJobs(s.w.jobs) ==> Places(s, j) == 1
    ensures DistinctIds(s.queue) && |s.queue| <= CHANNEL_CAPACITY
    ensures forall k :: 0 <= k < |s.queue| ==> s.queue[k].id in PendingJobs(s.w.jobs)
  {
    ReachableConserved(s);
    assert forall k :: 0 <= k < |s.queue| ==> Image(s.w.jobs, s.queue[k]);
    if s.phase == Up {
      forall j | j in PendingJobs(s.w.jobs) ensures Places(s, j) == 1 {
        MarkHeld(s.workers, j);
        assert Places(s, j) >= 1;
        QueuedNotHeld(s, j);
      }
    }
  }

  lemma QueuedNotHeld(s: Sys, j: JobId)
    requires Placed(s)
    ensures Queued(s.queue, j) ==> !Held(s.workers, j)
    ensures j in s.reqs ==> !Held(s.workers, j) && !Queued(s.queue, j)
  {
  }

  /** The step is an answered look-up of active jobs that lets a request of the container pass. */
  predicate PassesAnswered(s: Sys, st: Step, c: ContainerId)
    requires Enabled(s, st)
  {
    st.Serve? && s.reqs[st.id].stage.CheckJobs? && s.reqs[st.id].job.target == c && st.reply.Done?
  }

  /** No answered look-up of active jobs lets a request of the container pass during the run. */
  predicate Shut(s: Sys, run: seq<Step>, c: ContainerId)
    requires Feasible(s, run)
    decreases |run|
  {
    run != [] ==> !PassesAnswered(s, run[0], c) && Shut(Apply(s, run[0]), run[1..], c)
  }

  /** A stranded job blocks its container until the process goes down. Over every run without a crash,
      whatever requests, failures and clean-ups it holds: the job's row stays PENDING and as it is, the
      job stays stranded, and no Start, Stop or Delete of its container whose look-up is answered is admitted. */
  lemma StrandedBlocks(s: Sys, run: seq<Step>, j: JobId)
    requires Reachable(s) && s.phase == Up && j in s.hist.stranded && j in s.w.jobs
    requires Feasible(s, run) && forall k :: 0 <= k < |run| ==> run[k] != Crash
    ensures var t := Final(s, run);
      && j in t.hist.stranded && j in t.w.jobs && t.w.jobs[j] == s.w.jobs[j] && t.w.jobs[j].status == JobPending
      && Shut(s, run, s.w.jobs[j].target)
  {
    ReachableConserved(s);
    StrandedRun(s, run, j);
  }

  lemma {:induction false} StrandedRun(s: Sys, run: seq<Step>, j: JobId)
    requires Inv(s) && Conserved(s) && s.phase == Up && j in s.hist.stranded && j in s.w.jobs
    requires Feasible(s, run) && forall k :: 0 <= k < |run| ==> run[k] != Crash
    ensures var t := Final(s, run);
      && j in t.hist.stranded && j in t.w.jobs && t.w.jobs[j] == s.w.jobs[j] && t.w.jobs[j].status == JobPending
      && Shut(s, run, s.w.jobs[j].target)
    decreases |run|
  {
    if run != [] {
      StepInv(s, run[0]);
      StepConserved(s, run[0]);
      StrandedStays(s, run[0], j);
      StrandedRun(Apply(s, run[0]), run[1..], j);
    }
  }

  lemma StrandedStays(s: Sys, st: Step, j: JobId)
    requires Inv(s) && Conserved(s) && s.phase == Up && j in s.hist.stranded && Enabled(s, st) && st != Crash
    requires Inv(Apply(s, st)) && Conserved(Apply(s, st))
    ensures var t := Apply(s, st);
      && t.phase == Up && j in t.hist.stranded && j in s.w.jobs && j in t.w.jobs && t.w.jobs[j] == s.w.jobs[j]
      && !PassesAnswered(s, st, s.w.jobs[j].target)
  {
    StrandedKept(s, st, j);
    StepForward(s, st);
    assert Columns(s.w.jobs[j]) && Columns(Apply(s, st).w.jobs[j]);
  }

  lemma StrandedKept(s: Sys, st: Step, j: JobId)
    requires s.phase == Up && j in s.hist.stranded && Enabled(s, st) && st != Crash
    ensures Apply(s, st).phase == Up && j in Apply(s, st).hist.stranded
  {
    match st
    case Serve(k, reply) => ServeReach(s, s.reqs[k], reply); StrandedServe(s, s.reqs[k], reply);
    case _ =>
  }

  lemma StrandedServe(s: Sys, r: Request, reply: Reply)
    ensures s.hist.stranded <= ServeNext(s, r, reply).hist.stranded
  {
  }

  // ---------- the pool bounds the RUNNING rows ----------

  function BusyIds(workers: seq<Proc>): set<JobId> {
    set i | 0 <= i < |workers| && workers[i].Busy? :: workers[i].job.id
  }

  lemma {:induction false} PoolBound(workers: seq<Proc>)
    ensures |BusyIds(workers)| <= |workers|
  {
    if workers != [] {
      var rest, last := workers[..|workers| - 1], workers[|workers| - 1];
      PoolBound(rest);
      var ids := if last.Busy? then BusyIds(rest) + {last.job.id} else BusyIds(rest);
      forall j | j in BusyIds(workers) ensures j in ids {
        var i :| 0 <= i < |workers| && workers[i].Busy? && workers[i].job.id == j;
        if i < |rest| { assert rest[i] == workers[i]; }
      }
      assert BusyIds(workers) <= ids;
      SubsetSize(BusyIds(workers), ids);
    }
  }

  lemma {:induction false} SubsetSize<T>(a: set<T>, b: set<T>)
    requires a <= b
    ensures |a| <= |b|
  {
    if a != {} {
      var x :| x in a;
      SubsetSize(a - {x}, b - {x});
    }
  }

  /** Rows say RUNNING for jobs a worker is processing, and beyond those only where a final write
      or the start-up recovery failed; without such failures the pool size bounds them. */
  lemma RunningWithinPool(s: Sys)
    requires Reachable(s) && s.phase != Down
    ensures RunningJobs(s.w.jobs) <= BusyIds(s.workers) + s.hist.stuck
    ensures s.hist.stuck == {} ==> |RunningJobs(s.w.jobs)| <= |s.workers|
  {
    ReachableConserved(s);
    PoolBound(s.workers);
    assert RunningJobs(s.w.jobs) <= BusyIds(s.workers) + s.hist.stuck;
    if s.hist.stuck == {} { SubsetSize(RunningJobs(s.w.jobs), BusyIds(s.workers)); }
  }
}
