/** The invariant every reachable state satisfies: where job objects can be, which locks are
    held, and which jobs can be active at the same time. */
module Invariant {
  import opened Domain
  import opened Store
  import opened WorkerSteps
  import opened Protocol

  predicate Queued(queue: seq<Job>, j: JobId) { exists k :: 0 <= k < |queue| && queue[k].id == j }

  predicate Held(workers: seq<Proc>, j: JobId) { exists i :: 0 <= i < |workers| && workers[i].Busy? && workers[i].job.id == j }

  /** Which columns a job row of each status has: only jobs ended by a worker carry a completion
      time, and the jobs ended by the start-up recovery are marked as interrupted. */
  predicate Columns(job: Job) {
    match job.status
    case JobPending => job.error == None && job.completedAt == None
    case JobRunning => job.error == None && job.completedAt == None
    case JobSuccess => job.error == None && job.completedAt.Some?
    case JobFailed => job.error.Some? && (job.completedAt == None <==> job.error == Some(Interrupted))
  }

  /** Rows, jobs and requests carry IDs that were drawn, each under its own key. */
  predicate Keyed(s: Sys) {
    && (forall c :: c in s.w.rows ==> s.w.rows[c].id == c && c in s.hist.rowIds)
    && (forall j :: j in s.w.jobs ==> s.w.jobs[j].id == j && j in s.hist.jobIds)
    && (forall j :: j in s.w.jobs ==> s.w.jobs[j].target in s.hist.rowIds && Columns(s.w.jobs[j]))
    && (forall j :: j in s.reqs ==> s.reqs[j].job.id == j && j in s.hist.jobIds && RequestOk(s.reqs[j], s.hist.rowIds))
  }

  predicate Untouched(job: Job) { job.status == JobPending && job.error == None && job.completedAt == None }

  predicate RequestOk(r: Request, rowIds: set<ContainerId>) {
    && Untouched(r.job)
    && (r.stage.AwaitMutex? || r.stage.AwaitRow? || Guarding(r) ==> r.job.kind != CreateContainer)
    && (Founds(r) ==> r.job.kind == CreateContainer)
    && (r.job.kind == CreateContainer || Guarding(r) ==> r.job.target in rowIds)
    && (r.stage.NewRow? ==> r.stage.row.id == r.job.target && r.stage.row.owner == r.job.user
                            && r.stage.row.status == Created && r.stage.row.dockerId == None)
    && (Guarding(r) ==> r.stage.seen.owner == r.job.user)
  }

  /** A job waiting to be delivered is the untouched image of its row. */
  predicate Image(jobs: map<JobId, Job>, job: Job) { job.id in jobs && jobs[job.id] == job && Untouched(job) }

  predicate WorkerOk(jobs: map<JobId, Job>, p: Proc) {
    p.Busy? ==>
      && p.job.id in jobs && jobs[p.job.id].SameJob(p.job) && jobs[p.job.id].Active()
      && p.job.error == None && p.job.completedAt == None
      && (p.pc.Mark? ==> Image(jobs, p.job)) && p.pc != Finish(Some(Interrupted))
  }

  predicate QueuePlaced(queue: seq<Job>, jobs: map<JobId, Job>) {
    && |queue| <= CHANNEL_CAPACITY && DistinctIds(queue)
    && (forall k :: 0 <= k < |queue| ==> Image(jobs, queue[k]))
  }

  predicate WorkersPlaced(workers: seq<Proc>, jobs: map<JobId, Job>, queue: seq<Job>) {
    && (forall i :: 0 <= i < |workers| ==> WorkerOk(jobs, workers[i]))
    && (forall i :: 0 <= i < |workers| && workers[i].Busy? ==> !Queued(queue, workers[i].job.id))
    && (forall i, k :: 0 <= i < k < |workers| && workers[i].Busy? && workers[k].Busy? ==> workers[i].job.id != workers[k].job.id)
  }

  predicate RequestsPlaced(reqs: map<JobId, Request>, jobs: map<JobId, Job>, queue: seq<Job>, workers: seq<Proc>) {
    forall j :: j in reqs ==>
      && !Queued(queue, j) && !Held(workers, j)
      && (if reqs[j].stage.Send? then Image(jobs, reqs[j].job) else j !in jobs)
  }

  /** Every job object is in one place, and it is the image of its row. */
  predicate Placed(s: Sys) {
    && QueuePlaced(s.queue, s.w.jobs) && WorkersPlaced(s.workers, s.w.jobs, s.queue)
    && RequestsPlaced(s.reqs, s.w.jobs, s.queue, s.workers)
    && (s.phase != Up ==> s.queue == [] && s.reqs == map[] && forall i :: 0 <= i < |s.workers| ==> s.workers[i].Idle?)
  }

  predicate Guarding(r: Request) { r.stage.CheckJobs? || r.stage.Insert? }

  predicate Founds(r: Request) { r.stage.NewRow? || r.stage.NewJob? }

  /** A request past its lock stage holds the lock. */
  predicate Locked(s: Sys) {
    && (s.locking.mutex || s.locking.rowLock)
    && (s.locking.rowLock ==> s.hist.unchecked == {})
    && (forall j :: j in s.reqs ==> HoldsLocks(s, s.reqs[j]))
  }

  predicate HoldsLocks(s: Sys, r: Request) {
    var c := r.job.target;
    && (s.locking.mutex && (r.stage.AwaitRow? || Guarding(r)) ==> c in s.mutex && s.mutex[c] == r.job.id)
    && (s.locking.rowLock && Guarding(r) ==> c in s.locks && s.locks[c] == r.job.id)
  }

  /** The container had neither a guard between Create's two writes nor one whose look-up failed. */
  predicate Orderly(h: History, c: ContainerId) { c !in h.split && c !in h.unchecked }

  /** Two job rows of one container: never two CREATE jobs, and not both active, unless one is the
      CREATE job of a split container or the guard had gone unchecked. */
  predicate Coexist(h: History, x: Job, y: Job) {
    x.target == y.target ==>
      && (x.kind != CreateContainer || y.kind != CreateContainer)
      && (x.Active() && y.Active() ==>
            && !Orderly(h, x.target)
            && (x.kind == CreateContainer || y.kind == CreateContainer || x.target in h.unchecked))
  }

  /** What an admitted request finds in the job table until its own row is visible: no active job
      beside the CREATE job of a split container. Create draws its container ID itself and meets
      no job of that container, unless it is split. */
  predicate Meets(h: History, r: Request, x: Job) {
    r.job.target == x.target ==>
      && (r.stage.Insert? && x.Active() ==> !Orderly(h, x.target) && (x.kind == CreateContainer || x.target in h.unchecked))
      && (Founds(r) ==> x.kind != CreateContainer)
      && (r.stage.NewRow? ==> false)
      && (r.stage.NewJob? ==> !Orderly(h, x.target))
  }

  /** Two requests for one container: only one founds it, and no guard passes its row read before
      it is founded. */
  predicate Rivals(h: History, r: Request, q: Request) {
    r.job.target == q.job.target ==>
      && (r.job.kind != CreateContainer || q.job.kind != CreateContainer)
      && (r.stage.NewRow? ==> !Guarding(q))
      && (r.stage.NewJob? && q.stage.Insert? ==> !Orderly(h, r.job.target))
  }

  predicate Exclusive(s: Sys) {
    && (forall j, k :: j in s.w.jobs && k in s.w.jobs && j != k ==> Coexist(s.hist, s.w.jobs[j], s.w.jobs[k]))
    && (forall j, k :: j in s.reqs && k in s.w.jobs && j != k ==> Meets(s.hist, s.reqs[j], s.w.jobs[k]))
    && (forall j, k :: j in s.reqs && k in s.reqs && j != k ==> Rivals(s.hist, s.reqs[j], s.reqs[k]))
    && (forall j :: j in s.reqs && s.reqs[j].stage.NewRow? ==> s.reqs[j].job.target !in s.w.rows)
  }

  predicate OwnedBy(s: Sys, c: ContainerId, u: UserId) { c in s.w.rows ==> s.w.rows[c].owner == u }

  /** A job belongs to the owner of its container. */
  predicate Owned(s: Sys) {
    && (forall j :: j in s.w.jobs ==> OwnedBy(s, s.w.jobs[j].target, s.w.jobs[j].user))
    && (forall j :: j in s.reqs && (Guarding(s.reqs[j]) || s.reqs[j].stage.NewJob?) ==>
          OwnedBy(s, s.reqs[j].job.target, s.reqs[j].job.user))
  }

  predicate Inv(s: Sys) { Keyed(s) && Placed(s) && Locked(s) && Exclusive(s) && Owned(s) }

  lemma InitInv(s: Sys)
    requires Init(s)
    ensures Inv(s)
  {
  }

  // ---------- steps that only take away: requests leave, jobs and rows advance ----------

  predicate Advance(jobs: map<JobId, Job>, jobs': map<JobId, Job>) {
    && (forall j :: j in jobs' ==> j in jobs && jobs[j].SameJob(jobs'[j]) && (jobs'[j].Active() ==> jobs[j].Active()))
    && (forall j :: j in jobs' && Columns(jobs[j]) ==> Columns(jobs'[j]))
  }

  predicate RowsKeep(rows: map<ContainerId, Container>, rows': map<ContainerId, Container>) {
    forall c :: c in rows' ==> c in rows && rows[c].id == rows'[c].id && rows[c].owner == rows'[c].owner
  }

  predicate Fewer(s: Sys, t: Sys) {
    && (forall j :: j in t.reqs ==> j in s.reqs && t.reqs[j] == s.reqs[j])
    && Advance(s.w.jobs, t.w.jobs) && RowsKeep(s.w.rows, t.w.rows)
    && t.hist.split == s.hist.split && t.hist.unchecked == s.hist.unchecked
    && t.hist.jobIds == s.hist.jobIds && t.hist.rowIds == s.hist.rowIds
  }

  lemma FewerKeyed(s: Sys, t: Sys)
    requires Keyed(s) && Fewer(s, t)
    ensures Keyed(t)
  {
  }

  lemma FewerExclusive(s: Sys, t: Sys)
    requires Exclusive(s) && Keyed(s) && Fewer(s, t)
    ensures Exclusive(t)
  {
    forall j, k | j in t.w.jobs && k in t.w.jobs && j != k ensures Coexist(t.hist, t.w.jobs[j], t.w.jobs[k]) {
      assert Coexist(s.hist, s.w.jobs[j], s.w.jobs[k]);
    }
    forall j, k | j in t.reqs && k in t.w.jobs && j != k ensures Meets(t.hist, t.reqs[j], t.w.jobs[k]) {
      assert Meets(s.hist, s.reqs[j], s.w.jobs[k]);
    }
    forall j, k | j in t.reqs && k in t.reqs && j != k ensures Rivals(t.hist, t.reqs[j], t.reqs[k]) {
      assert Rivals(s.hist, s.reqs[j], s.reqs[k]);
    }
  }

  lemma FewerOwned(s: Sys, t: Sys)
    requires Owned(s) && Fewer(s, t)
    ensures Owned(t)
  {
    forall j | j in t.w.jobs ensures OwnedBy(t, t.w.jobs[j].target, t.w.jobs[j].user) {
      assert OwnedBy(s, s.w.jobs[j].target, s.w.jobs[j].user);
    }
  }

  lemma LeaveInv(s: Sys, r: Request)
    requires Inv(s) && r.job.id in s.reqs && s.reqs[r.job.id].job.target == r.job.target
    ensures Inv(Leave(s, r))
  {
    var t := Leave(s, r);
    assert Fewer(s, t);
    FewerKeyed(s, t);
    FewerExclusive(s, t);
    FewerOwned(s, t);
    LeavePlaced(s, r);
    LeaveLocked(s, r);
  }

  lemma LeavePlaced(s: Sys, r: Request)
    requires Placed(s)
    ensures Placed(Leave(s, r))
  {
  }

  lemma LeaveLocked(s: Sys, r: Request)
    requires Locked(s) && Keyed(s)
    ensures Locked(Leave(s, r))
  {
    var t := Leave(s, r);
    forall j | j in t.reqs ensures HoldsLocks(t, t.reqs[j]) {
      assert HoldsLocks(s, s.reqs[j]);
    }
  }

  lemma TakeInv(s: Sys, i: nat)
    requires Inv(s) && i < |s.workers| && s.workers[i].Idle? && |s.queue| > 0 && s.phase == Up
    ensures Inv(TakeJob(s, i))
  {
    var t := TakeJob(s, i);
    assert Fewer(s, t);
    FewerKeyed(s, t);
    FewerExclusive(s, t);
    FewerOwned(s, t);
    TakePlaced(s, i);
    SameLocks(s, t);
  }

  lemma SameLocks(s: Sys, t: Sys)
    requires Locked(s)
    requires t.locking == s.locking && t.hist.unchecked == s.hist.unchecked
    requires t.mutex == s.mutex && t.locks == s.locks && t.reqs == s.reqs
    ensures Locked(t)
  {
    forall j | j in t.reqs ensures HoldsLocks(t, t.reqs[j]) {
      assert HoldsLocks(s, s.reqs[j]);
    }
  }

  lemma TakePlaced(s: Sys, i: nat)
    requires Placed(s) && i < |s.workers| && s.workers[i].Idle? && |s.queue| > 0 && s.phase == Up
    ensures Placed(TakeJob(s, i))
  {
    var t := TakeJob(s, i);
    var job := s.queue[0];
    assert Image(s.w.jobs, s.queue[0]);
    assert forall k :: 0 <= k < |t.queue| ==> t.queue[k] == s.queue[k + 1];
    forall j ensures Queued(t.queue, j) ==> Queued(s.queue, j) && j != job.id {
    }
    assert Queued(s.queue, job.id);
  }

  lemma HeldStep(workers: seq<Proc>, i: nat, p': Proc, j: JobId)
    requires i < |workers| && workers[i].Busy? && (p'.Busy? ==> p'.job.id == workers[i].job.id)
    ensures Held(workers[i := p'], j) ==> Held(workers, j)
    ensures Held(workers, workers[i].job.id)
  {
    if Held(workers[i := p'], j) {
      var k :| 0 <= k < |workers| && workers[i := p'][k].Busy? && workers[i := p'][k].job.id == j;
      assert workers[k].Busy? && workers[k].job.id == j;
    }
  }

  lemma WorkPlaced(s: Sys, i: nat, a: Answer)
    requires Keyed(s) && Placed(s) && s.phase == Up && i < |s.workers| && s.workers[i].Busy?
    ensures Placed(WorkOn(s, i, a))
  {
    var p, o := s.workers[i], Work(s.w, s.workers[i], a);
    WorkOnJobs(s.w, p, a);
    WorkOnProc(s.w, p, a);
    WorkersGoOn(s.workers, s.w.jobs, o.world.jobs, s.queue, i, o.proc);
    assert QueuePlaced(s.queue, o.world.jobs) by {
      forall k | 0 <= k < |s.queue| ensures Image(o.world.jobs, s.queue[k]) {
        assert Image(s.w.jobs, s.queue[k]) && s.queue[k].id != p.job.id;
      }
    }
    assert RequestsPlaced(s.reqs, o.world.jobs, s.queue, s.workers[i := o.proc]) by {
      forall j | j in s.reqs ensures s.reqs[j].job.id == j != p.job.id && !Held(s.workers[i := o.proc], j) {
        assert s.reqs[j].job.id == j;
        HeldStep(s.workers, i, o.proc, j);
      }
    }
  }

  lemma WorkersGoOn(workers: seq<Proc>, jobs: map<JobId, Job>, jobs': map<JobId, Job>, queue: seq<Job>, i: nat, p': Proc)
    requires WorkersPlaced(workers, jobs, queue) && i < |workers| && workers[i].Busy?
    requires forall j :: j in jobs && j != workers[i].job.id ==> j in jobs' && jobs'[j] == jobs[j]
    requires p'.Busy? ==> p'.job.id == workers[i].job.id && WorkerOk(jobs', p')
    ensures WorkersPlaced(workers[i := p'], jobs', queue)
  {
    var workers' := workers[i := p'];
    forall k | 0 <= k < |workers'| ensures WorkerOk(jobs', workers'[k]) {
      if k != i { assert WorkerOk(jobs, workers[k]); }
    }
  }

  lemma WorkInv(s: Sys, i: nat, a: Answer)
    requires Inv(s) && s.phase == Up && i < |s.workers| && s.workers[i].Busy?
    ensures Inv(WorkOn(s, i, a))
  {
    var t, p := WorkOn(s, i, a), s.workers[i];
    WorkFewer(s, i, a);
    FewerKeyed(s, t);
    FewerExclusive(s, t);
    FewerOwned(s, t);
    WorkPlaced(s, i, a);
    SameLocks(s, t);
  }

  lemma WorkFewer(s: Sys, i: nat, a: Answer)
    requires Keyed(s) && Placed(s) && i < |s.workers| && s.workers[i].Busy?
    ensures Fewer(s, WorkOn(s, i, a))
  {
    WorkOnRows(s.w, s.workers[i], a);
    WorkAdvances(s, i, a);
  }

  lemma WorkAdvances(s: Sys, i: nat, a: Answer)
    requires Keyed(s) && Placed(s) && i < |s.workers| && s.workers[i].Busy?
    ensures Advance(s.w.jobs, Work(s.w, s.workers[i], a).world.jobs)
  {
    WorkOnJobs(s.w, s.workers[i], a);
    assert WorkerOk(s.w.jobs, s.workers[i]);
  }

  lemma JobsOnlyInv(s: Sys, jobs': map<JobId, Job>)
    requires Inv(s) && Advance(s.w.jobs, jobs')
    requires forall j :: j in s.w.jobs && s.w.jobs[j].Active() && (s.phase == Up || (j in jobs' && jobs'[j].Active())) ==>
               j in jobs' && jobs'[j] == s.w.jobs[j]
    ensures Inv(s.(w := s.w.(jobs := jobs')))
  {
    var t := s.(w := s.w.(jobs := jobs'));
    FewerKeyed(s, t);
    FewerExclusive(s, t);
    FewerOwned(s, t);
    SameLocks(s, t);
    JobsOnlyPlaced(s, jobs');
  }

  lemma JobsOnlyPlaced(s: Sys, jobs': map<JobId, Job>)
    requires Placed(s) && Advance(s.w.jobs, jobs')
    requires forall j :: j in s.w.jobs && s.w.jobs[j].Active() && (s.phase == Up || (j in jobs' && jobs'[j].Active())) ==>
               j in jobs' && jobs'[j] == s.w.jobs[j]
    ensures Placed(s.(w := s.w.(jobs := jobs')))
  {
    forall i | 0 <= i < |s.workers| ensures WorkerOk(jobs', s.workers[i]) {
      assert WorkerOk(s.w.jobs, s.workers[i]);
    }
  }

  lemma CleanInv(s: Sys, now: Time)
    requires Inv(s)
    ensures Inv(s.(w := s.w.(jobs := DeleteExpired(s.w.jobs, now))))
  {
    JobsOnlyInv(s, DeleteExpired(s.w.jobs, now));
  }

  lemma FallInv(s: Sys)
    requires Inv(s)
    ensures Inv(Fall(s))
  {
    var t := Fall(s);
    assert Fewer(s, t);
    FewerKeyed(s, t);
    FewerExclusive(s, t);
    FewerOwned(s, t);
  }

  lemma FailedAdvance(jobs: map<JobId, Job>)
    ensures Advance(jobs, MarkRunningAsFailed(jobs))
    ensures forall j :: j in jobs && MarkRunningAsFailed(jobs)[j].Active() ==> MarkRunningAsFailed(jobs)[j] == jobs[j]
  {
  }

  lemma SweepUpInv(s: Sys, reply: Reply)
    requires Inv(s) && s.phase == Down
    ensures Inv(SweepUp(s, reply))
  {
    var jobs' := SweepUp(s, reply).w.jobs;
    FailedAdvance(s.w.jobs);
    JobsOnlyInv(s, jobs');
    SamePlaces(s.(w := s.w.(jobs := jobs')), SweepUp(s, reply));
  }

  /** The invariant does not look at the clock, the Docker containers and the other history. */
  lemma SamePlaces(s: Sys, t: Sys)
    requires Inv(s) && t.w.jobs == s.w.jobs && t.w.rows == s.w.rows
    requires t.queue == s.queue && t.workers == s.workers && t.reqs == s.reqs
    requires t.mutex == s.mutex && t.locks == s.locks && t.locking == s.locking
    requires t.hist.split == s.hist.split && t.hist.unchecked == s.hist.unchecked
    requires t.hist.jobIds == s.hist.jobIds && t.hist.rowIds == s.hist.rowIds
    requires t.phase == s.phase || (s.phase != Up && t.phase != Up)
    ensures Inv(t)
  {
    assert Fewer(s, t);
    FewerKeyed(s, t);
    FewerExclusive(s, t);
    FewerOwned(s, t);
    SameLocks(s, t);
  }

  lemma BootPlaced(s: Sys, listing: seq<Job>, read: nat)
    requires Keyed(s) && Placed(s) && s.phase == Swept && IsListing(s.w.jobs, listing) && read <= |listing|
    ensures Placed(Boot(s, Fitting(listing[..read])))
  {
    forall k | 0 <= k < read ensures Image(s.w.jobs, listing[k]) {
      assert listing[k].id in PendingJobs(s.w.jobs);
    }
  }

  lemma BootInv(s: Sys, listing: seq<Job>, read: nat)
    requires Inv(s) && s.phase == Swept && IsListing(s.w.jobs, listing) && read <= |listing|
    ensures Inv(Boot(s, Fitting(listing[..read])))
  {
    var t := Boot(s, Fitting(listing[..read]));
    assert Fewer(s, t);
    FewerKeyed(s, t);
    FewerExclusive(s, t);
    FewerOwned(s, t);
    BootPlaced(s, listing, read);
  }

  // ---------- steps that add: calls, requests going on, new rows, the channel ----------

  lemma CallInv(s: Sys, r: Request, rowIds: set<ContainerId>)
    requires Inv(s) && s.phase == Up
    requires r.job.id !in s.hist.jobIds && RequestOk(r, rowIds) && s.hist.rowIds <= rowIds
    requires r.stage.AwaitMutex? || (r.stage.NewRow? && r.job.target !in s.hist.rowIds)
    ensures Inv(Call(s, r, rowIds))
  {
    CallKeyed(s, r, rowIds);
    CallPlaced(s, r, rowIds);
    CallExclusive(s, r, rowIds);
    var t := Call(s, r, rowIds);
    forall j | j in t.reqs ensures HoldsLocks(t, t.reqs[j]) {
      if j != r.job.id { assert HoldsLocks(s, s.reqs[j]); }
    }
  }

  lemma CallKeyed(s: Sys, r: Request, rowIds: set<ContainerId>)
    requires Keyed(s) && r.job.id !in s.hist.jobIds && RequestOk(r, rowIds) && s.hist.rowIds <= rowIds
    ensures Keyed(Call(s, r, rowIds))
  {
  }

  lemma CallPlaced(s: Sys, r: Request, rowIds: set<ContainerId>)
    requires Keyed(s) && Placed(s) && s.phase == Up && r.job.id !in s.hist.jobIds && !r.stage.Send?
    ensures Placed(Call(s, r, rowIds))
  {
    var t := Call(s, r, rowIds);
    assert r.job.id !in s.w.jobs;
    assert !Queued(s.queue, r.job.id) by {
      assert forall k :: 0 <= k < |s.queue| ==> Image(s.w.jobs, s.queue[k]);
    }
    assert !Held(s.workers, r.job.id) by {
      assert forall i :: 0 <= i < |s.workers| ==> WorkerOk(s.w.jobs, s.workers[i]);
    }
  }

  lemma CallExclusive(s: Sys, r: Request, rowIds: set<ContainerId>)
    requires Keyed(s) && Exclusive(s) && r.job.id !in s.hist.jobIds
    requires r.stage.AwaitMutex? || (r.stage.NewRow? && r.job.target !in s.hist.rowIds)
    requires RequestOk(r, rowIds)
    ensures Exclusive(Call(s, r, rowIds))
  {
    var t := Call(s, r, rowIds);
    ReplaceExclusive(s, t, r);
  }

  /** Histories only grow, and the exclusion facts only get weaker with them. */
  predicate Grows(h: History, h': History) { h.split <= h'.split && h.unchecked <= h'.unchecked }

  lemma ReplaceExclusive(s: Sys, t: Sys, r: Request)
    requires Exclusive(s) && Grows(s.hist, t.hist)
    requires t.w.jobs == s.w.jobs && t.reqs == s.reqs[r.job.id := r]
    requires forall k :: k in s.w.jobs && k != r.job.id ==> Meets(t.hist, r, s.w.jobs[k])
    requires forall k :: k in s.reqs && k != r.job.id ==> Rivals(t.hist, r, s.reqs[k]) && Rivals(t.hist, s.reqs[k], r)
    requires forall j :: j in t.reqs && t.reqs[j].stage.NewRow? ==> t.reqs[j].job.target !in t.w.rows
    ensures Exclusive(t)
  {
    forall j, k | j in t.w.jobs && k in t.w.jobs && j != k ensures Coexist(t.hist, t.w.jobs[j], t.w.jobs[k]) {
      assert Coexist(s.hist, s.w.jobs[j], s.w.jobs[k]);
    }
    forall j, k | j in t.reqs && k in t.w.jobs && j != k ensures Meets(t.hist, t.reqs[j], t.w.jobs[k]) {
      if j != r.job.id { assert Meets(s.hist, s.reqs[j], s.w.jobs[k]); }
    }
    forall j, k | j in t.reqs && k in t.reqs && j != k ensures Rivals(t.hist, t.reqs[j], t.reqs[k]) {
      if j != r.job.id && k != r.job.id { assert Rivals(s.hist, s.reqs[j], s.reqs[k]); }
    }
  }

  /** The request goes on to another stage; nothing but its locks and the history moves with it. */
  lemma GotoInv(s: Sys, t: Sys, r: Request, r': Request)
    requires Inv(s) && s.phase == Up && r.job.id in s.reqs && s.reqs[r.job.id] == r
    requires r'.job.SameJob(r.job.(createdAt := r'.job.createdAt)) && RequestOk(r', s.hist.rowIds)
    requires !r.stage.Send? && !r'.stage.Send? && !Founds(r')
    requires t == s.(reqs := s.reqs[r.job.id := r'], mutex := t.mutex, locks := t.locks,
                     hist := s.hist.(split := t.hist.split, unchecked := t.hist.unchecked, stale := t.hist.stale))
    requires Grows(s.hist, t.hist) && (s.locking.rowLock ==> t.hist.unchecked == {})
    requires forall k :: k in s.w.jobs ==> Meets(t.hist, r', s.w.jobs[k])
    requires forall k :: k in s.reqs && k != r.job.id ==> Rivals(t.hist, r', s.reqs[k]) && Rivals(t.hist, s.reqs[k], r')
    requires Guarding(r') ==> OwnedBy(s, r'.job.target, r'.job.user)
    requires forall k :: k in t.reqs ==> HoldsLocks(t, t.reqs[k])
    ensures Inv(t)
  {
    ReplaceExclusive(s, t, r');
    GotoPlaced(s, t, r, r');
    assert Locked(t);
  }

  lemma GotoPlaced(s: Sys, t: Sys, r: Request, r': Request)
    requires Placed(s) && s.phase == Up && r.job.id in s.reqs && s.reqs[r.job.id] == r
    requires !r.stage.Send? && !r'.stage.Send?
    requires t.w == s.w && t.queue == s.queue && t.workers == s.workers && t.phase == Up && t.reqs == s.reqs[r.job.id := r']
    ensures Placed(t)
  {
  }

  lemma AwaitMutexInv(s: Sys, j: JobId, reply: Reply)
    requires Inv(s) && s.phase == Up && j in s.reqs && s.reqs[j].stage.AwaitMutex? && CanServe(s, s.reqs[j], reply)
    ensures Inv(ServeNext(s, s.reqs[j], reply))
  {
    var r, t := s.reqs[j], ServeNext(s, s.reqs[j], reply);
    forall k | k in t.reqs ensures HoldsLocks(t, t.reqs[k]) {
      assert HoldsLocks(s, s.reqs[k]);
    }
    forall k | k in s.reqs && k != j ensures Rivals(t.hist, t.reqs[j], s.reqs[k]) && Rivals(t.hist, s.reqs[k], t.reqs[j]) {
      assert Rivals(s.hist, r, s.reqs[k]) && Rivals(s.hist, s.reqs[k], r);
    }
    GotoInv(s, t, r, t.reqs[j]);
  }

  lemma AwaitRowInv(s: Sys, j: JobId, reply: Reply)
    requires Inv(s) && s.phase == Up && j in s.reqs && s.reqs[j].stage.AwaitRow? && CanServe(s, s.reqs[j], reply)
    ensures Inv(ServeNext(s, s.reqs[j], reply))
  {
    var r, t := s.reqs[j], ServeNext(s, s.reqs[j], reply);
    forall k | k in t.reqs ensures HoldsLocks(t, t.reqs[k]) {
      assert HoldsLocks(s, s.reqs[k]);
    }
    forall k | k in s.reqs && k != j ensures Rivals(t.hist, t.reqs[j], s.reqs[k]) && Rivals(t.hist, s.reqs[k], t.reqs[j]) {
      assert Rivals(s.hist, r, s.reqs[k]) && Rivals(s.hist, s.reqs[k], r);
    }
    GotoInv(s, t, r, t.reqs[j]);
  }

  lemma CheckJobsInv(s: Sys, j: JobId, reply: Reply)
    requires Inv(s) && s.phase == Up && j in s.reqs && s.reqs[j].stage.CheckJobs? && CanServe(s, s.reqs[j], reply)
    ensures Inv(ServeNext(s, s.reqs[j], reply))
  {
    var r, t := s.reqs[j], ServeNext(s, s.reqs[j], reply);
    forall k | k in t.reqs ensures HoldsLocks(t, t.reqs[k]) {
      assert HoldsLocks(s, s.reqs[k]);
    }
    forall k | k in s.reqs && k != j ensures Rivals(t.hist, t.reqs[j], s.reqs[k]) && Rivals(t.hist, s.reqs[k], t.reqs[j]) {
      assert Rivals(s.hist, r, s.reqs[k]) && Rivals(s.hist, s.reqs[k], r);
    }
    GotoInv(s, t, r, t.reqs[j]);
  }

  lemma PublishCoexist(s: Sys, r: Request)
    requires Keyed(s) && Exclusive(s) && r.job.id in s.reqs && s.reqs[r.job.id] == r && (r.stage.Insert? || r.stage.NewJob?)
    ensures var jobs := Publish(s, r).w.jobs;
      forall k, l :: k in jobs && l in jobs && k != l ==> Coexist(s.hist, jobs[k], jobs[l])
  {
    var jobs, j := Publish(s, r).w.jobs, r.job.id;
    assert RequestOk(r, s.hist.rowIds);
    forall k | k in s.w.jobs && k != j ensures Coexist(s.hist, r.job, s.w.jobs[k]) && Coexist(s.hist, s.w.jobs[k], r.job) {
      assert Meets(s.hist, r, s.w.jobs[k]);
    }
    forall k, l | k in jobs && l in jobs && k != l ensures Coexist(s.hist, jobs[k], jobs[l]) {
      if k != j && l != j { assert Coexist(s.hist, s.w.jobs[k], s.w.jobs[l]); }
    }
  }

  lemma PublishMeets(s: Sys, r: Request)
    requires Inv(s) && r.job.id in s.reqs && s.reqs[r.job.id] == r && (r.stage.Insert? || r.stage.NewJob?)
    ensures var t := Publish(s, r);
      forall k, l :: k in t.reqs && l in t.w.jobs && k != l ==> Meets(s.hist, t.reqs[k], t.w.jobs[l])
  {
    var t, j := Publish(s, r), r.job.id;
    forall k, l | k in t.reqs && l in t.w.jobs && k != l ensures Meets(s.hist, t.reqs[k], t.w.jobs[l]) {
      if k != j {
        if l != j { assert Meets(s.hist, s.reqs[k], s.w.jobs[l]); } else { PublishMet(s, r, k); }
      }
    }
  }

  lemma PublishExclusive(s: Sys, r: Request)
    requires Inv(s) && r.job.id in s.reqs && s.reqs[r.job.id] == r && (r.stage.Insert? || r.stage.NewJob?)
    ensures Exclusive(Publish(s, r))
  {
    var t := Publish(s, r);
    PublishCoexist(s, r);
    PublishMeets(s, r);
    forall k, l | k in t.reqs && l in t.reqs && k != l ensures Rivals(t.hist, t.reqs[k], t.reqs[l]) {
      assert Rivals(s.hist, s.reqs[k], s.reqs[l]);
    }
  }

  /** The lock of r, or its having founded the container, keeps every other request clear of the new row. */
  lemma PublishMet(s: Sys, r: Request, k: JobId)
    requires Inv(s) && r.job.id in s.reqs && s.reqs[r.job.id] == r && (r.stage.Insert? || r.stage.NewJob?)
    requires k in s.reqs && k != r.job.id
    ensures Meets(s.hist, s.reqs[k], r.job)
  {
    assert Rivals(s.hist, r, s.reqs[k]) && Rivals(s.hist, s.reqs[k], r);
    assert HoldsLocks(s, r) && HoldsLocks(s, s.reqs[k]);
  }

  lemma PublishPlaced(s: Sys, r: Request)
    requires Keyed(s) && Placed(s) && s.phase == Up
    requires r.job.id in s.reqs && s.reqs[r.job.id] == r && !r.stage.Send?
    ensures Placed(Publish(s, r))
  {
    var t := Publish(s, r);
    assert r.job.id !in s.w.jobs;
    forall k | 0 <= k < |s.queue| ensures Image(t.w.jobs, s.queue[k]) {
      assert Image(s.w.jobs, s.queue[k]);
    }
    forall i | 0 <= i < |s.workers| ensures WorkerOk(t.w.jobs, s.workers[i]) {
      assert WorkerOk(s.w.jobs, s.workers[i]);
    }
    forall k | k in t.reqs && k != r.job.id ensures t.reqs[k].job.id == k {
    }
  }

  lemma PublishInv(s: Sys, r: Request)
    requires Inv(s) && s.phase == Up && r.job.id in s.reqs && s.reqs[r.job.id] == r && (r.stage.Insert? || r.stage.NewJob?)
    ensures Inv(Publish(s, r))
  {
    var t := Publish(s, r);
    PublishExclusive(s, r);
    PublishPlaced(s, r);
    PublishKept(s, r);
    PublishLocked(s, r);
  }

  lemma PublishKept(s: Sys, r: Request)
    requires Keyed(s) && Owned(s) && r.job.id in s.reqs && s.reqs[r.job.id] == r && (r.stage.Insert? || r.stage.NewJob?)
    ensures Keyed(Publish(s, r)) && Owned(Publish(s, r))
  {
    var t := Publish(s, r);
    assert RequestOk(r, s.hist.rowIds);
    assert OwnedBy(s, r.job.target, r.job.user);
    forall k | k in t.w.jobs ensures OwnedBy(t, t.w.jobs[k].target, t.w.jobs[k].user) {
      if k != r.job.id { assert OwnedBy(s, s.w.jobs[k].target, s.w.jobs[k].user); }
    }
  }

  lemma PublishLocked(s: Sys, r: Request)
    requires Keyed(s) && Locked(s) && r.job.id in s.reqs && s.reqs[r.job.id] == r
    ensures Locked(Publish(s, r))
  {
    var t := Publish(s, r);
    forall k | k in t.reqs ensures HoldsLocks(t, t.reqs[k]) {
      assert HoldsLocks(s, s.reqs[k]);
    }
  }

  lemma FoundExclusive(s: Sys, r: Request)
    requires Inv(s) && r.job.id in s.reqs && s.reqs[r.job.id] == r && r.stage.NewRow?
    ensures Exclusive(Found(s, r, r.stage.row))
  {
    var t, r' := Found(s, r, r.stage.row), r.(job := r.job.(createdAt := s.clock), stage := NewJob);
    forall k | k in s.w.jobs && k != r.job.id ensures Meets(t.hist, r', s.w.jobs[k]) {
      assert Meets(s.hist, r, s.w.jobs[k]);
    }
    forall k | k in s.reqs && k != r.job.id ensures Rivals(t.hist, r', s.reqs[k]) && Rivals(t.hist, s.reqs[k], r') {
      assert Rivals(s.hist, r, s.reqs[k]) && Rivals(s.hist, s.reqs[k], r);
    }
    forall j | j in t.reqs && t.reqs[j].stage.NewRow? ensures t.reqs[j].job.target !in t.w.rows {
      assert Rivals(s.hist, s.reqs[j], r);
    }
    ReplaceExclusive(s, t, r');
  }

  lemma FoundOwned(s: Sys, r: Request)
    requires Inv(s) && r.job.id in s.reqs && s.reqs[r.job.id] == r && r.stage.NewRow?
    ensures Owned(Found(s, r, r.stage.row))
  {
    var t, c := Found(s, r, r.stage.row), r.job.target;
    forall k | k in t.w.jobs ensures OwnedBy(t, t.w.jobs[k].target, t.w.jobs[k].user) {
      assert k != r.job.id && Meets(s.hist, r, s.w.jobs[k]);
      assert OwnedBy(s, s.w.jobs[k].target, s.w.jobs[k].user);
    }
    forall k | k in t.reqs && k != r.job.id && (Guarding(t.reqs[k]) || t.reqs[k].stage.NewJob?)
      ensures OwnedBy(t, t.reqs[k].job.target, t.reqs[k].job.user)
    {
      assert Rivals(s.hist, r, s.reqs[k]);
      assert OwnedBy(s, s.reqs[k].job.target, s.reqs[k].job.user);
    }
  }

  lemma FoundInv(s: Sys, r: Request)
    requires Inv(s) && s.phase == Up && r.job.id in s.reqs && s.reqs[r.job.id] == r && r.stage.NewRow?
    ensures Inv(Found(s, r, r.stage.row))
  {
    var t := Found(s, r, r.stage.row);
    FoundExclusive(s, r);
    FoundOwned(s, r);
    FoundPlaced(s, r);
    FoundLocked(s, r);
  }

  lemma FoundPlaced(s: Sys, r: Request)
    requires Keyed(s) && Placed(s) && s.phase == Up && r.job.id in s.reqs && s.reqs[r.job.id] == r && r.stage.NewRow?
    ensures Keyed(Found(s, r, r.stage.row)) && Placed(Found(s, r, r.stage.row))
  {
    assert RequestOk(r, s.hist.rowIds);
  }

  lemma FoundLocked(s: Sys, r: Request)
    requires Keyed(s) && Locked(s) && r.job.id in s.reqs && s.reqs[r.job.id] == r && r.stage.NewRow?
    ensures Locked(Found(s, r, r.stage.row))
  {
    var t := Found(s, r, r.stage.row);
    forall k | k in t.reqs ensures HoldsLocks(t, t.reqs[k]) {
      assert HoldsLocks(s, s.reqs[k]);
    }
  }

  lemma EnqueueInv(s: Sys, job: Job)
    requires Inv(s) && s.phase == Up && Image(s.w.jobs, job) && |s.queue| < CHANNEL_CAPACITY
    requires job.id !in s.reqs && !Queued(s.queue, job.id) && !Held(s.workers, job.id)
    ensures Inv(Enqueue(s, job))
  {
    var t := Enqueue(s, job);
    assert Fewer(s, t);
    FewerKeyed(s, t);
    FewerExclusive(s, t);
    FewerOwned(s, t);
    SameLocks(s, t);
    EnqueuePlaced(s, job);
  }

  lemma EnqueuePlaced(s: Sys, job: Job)
    requires Placed(s) && s.phase == Up && Image(s.w.jobs, job) && |s.queue| < CHANNEL_CAPACITY
    requires job.id !in s.reqs && !Queued(s.queue, job.id) && !Held(s.workers, job.id)
    ensures Placed(Enqueue(s, job))
  {
    var t := Enqueue(s, job);
    forall j ensures Queued(t.queue, j) <==> Queued(s.queue, j) || j == job.id {
      if j == job.id { assert t.queue[|s.queue|].id == j; }
      if Queued(s.queue, j) {
        var k :| 0 <= k < |s.queue| && s.queue[k].id == j;
        assert t.queue[k].id == j;
      }
    }
  }

  lemma SaveJobInv(s: Sys, r: Request, reply: Reply)
    requires Inv(s) && s.phase == Up && r.job.id in s.reqs && s.reqs[r.job.id] == r && (r.stage.Insert? || r.stage.NewJob?)
    ensures Inv(SaveJob(s, r, reply))
  {
    match reply
    case Done => PublishInv(s, r);
    case Refused => LeaveInv(s, r);
    case Lost =>
      PublishInv(s, r);
      LeaveInv(Publish(s, r), r);
      SamePlaces(Leave(Publish(s, r), r), SaveJob(s, r, reply));
  }

  lemma SaveRowInv(s: Sys, r: Request, reply: Reply)
    requires Inv(s) && s.phase == Up && r.job.id in s.reqs && s.reqs[r.job.id] == r && r.stage.NewRow?
    ensures Inv(SaveRow(s, r, r.stage.row, reply))
  {
    match reply
    case Done => FoundInv(s, r);
    case Refused => LeaveInv(s, r);
    case Lost =>
      FoundInv(s, r);
      LeaveInv(Found(s, r, r.stage.row), r);
  }

  lemma SentPlaces(s: Sys, r: Request)
    requires Placed(s) && r.job.id in s.reqs && s.reqs[r.job.id] == r && r.stage.Send?
    ensures var t := Leave(s, r);
      Image(t.w.jobs, r.job) && r.job.id !in t.reqs && !Queued(t.queue, r.job.id) && !Held(t.workers, r.job.id)
  {
  }

  lemma SentInv(s: Sys, r: Request)
    requires Inv(s) && s.phase == Up && r.job.id in s.reqs && s.reqs[r.job.id] == r && r.stage.Send? && |s.queue| < CHANNEL_CAPACITY
    ensures Inv(Enqueue(Leave(s, r), r.job))
  {
    LeaveInv(s, r);
    SentPlaces(s, r);
    EnqueueInv(Leave(s, r), r.job);
  }

  lemma StrandInv(s: Sys, r: Request)
    requires Inv(s) && r.job.id in s.reqs && s.reqs[r.job.id] == r
    ensures Inv(Strand(Leave(s, r), r.job.id))
  {
    LeaveInv(s, r);
    SamePlaces(Leave(s, r), Strand(Leave(s, r), r.job.id));
  }

  lemma SendInv(s: Sys, r: Request, reply: Reply)
    requires Inv(s) && s.phase == Up && r.job.id in s.reqs && s.reqs[r.job.id] == r && r.stage.Send?
    ensures Inv(ServeNext(s, r, reply))
  {
    if reply.Done? && |s.queue| < CHANNEL_CAPACITY {
      SentInv(s, r);
    } else {
      StrandInv(s, r);
    }
  }

  lemma ServeInv(s: Sys, j: JobId, reply: Reply)
    requires Inv(s) && s.phase == Up && j in s.reqs && CanServe(s, s.reqs[j], reply)
    ensures Inv(ServeNext(s, s.reqs[j], reply))
  {
    assert s.reqs[j].job.id == j;
    match s.reqs[j].stage
    case AwaitMutex => AwaitMutexInv(s, j, reply);
    case AwaitRow => AwaitRowInv(s, j, reply);
    case CheckJobs(_) => CheckJobsInv(s, j, reply);
    case Insert(_) => SaveJobInv(s, s.reqs[j], reply);
    case NewRow(_) => SaveRowInv(s, s.reqs[j], reply);
    case NewJob => SaveJobInv(s, s.reqs[j], reply);
    case Send => SendInv(s, s.reqs[j], reply);
  }

  lemma StepInv(s: Sys, st: Step)
    requires Inv(s) && Enabled(s, st)
    ensures Inv(Apply(s, st))
  {
    match st
    case CallGuarded(job) => CallInv(s, Request(job, AwaitMutex), s.hist.rowIds);
    case CallCreate(job, row) => CallInv(s, Request(job, NewRow(row)), s.hist.rowIds + {row.id});
    case Serve(j, reply) => ServeInv(s, j, reply);
    case Quit(j) => LeaveInv(s, s.reqs[j]);
    case Take(i) => TakeInv(s, i);
    case Answered(i, a) => WorkInv(s, i, a);
    case Halts(d) => SamePlaces(s, Apply(s, st));
    case Tick => SamePlaces(s, Apply(s, st));
    case Clean(reply) => CleanInv(s, s.clock);
    case Crash => FallInv(s);
    case Recover(reply) => SweepUpInv(s, reply);
    case Requeue(listing, read) => BootInv(s, listing, read);
  }

  lemma {:induction false} RunInv(s: Sys, run: seq<Step>)
    requires Inv(s) && Feasible(s, run)
    ensures Inv(Final(s, run))
    decreases |run|
  {
    if run != [] {
      StepInv(s, run[0]);
      RunInv(Apply(s, run[0]), run[1..]);
    }
  }

  lemma ReachableInv(s: Sys)
    requires Reachable(s)
    ensures Inv(s)
  {
    var s0, run :| Init(s0) && Feasible(s0, run) && s == Final(s0, run);
    InitInv(s0);
    RunInv(s0, run);
  }
}
