/** The conditions of the theorems are needed: from every state in which one of the exceptions comes up,
    a run leads to what the theorem excludes. */
module Necessity {
  import opened Domain
  import opened Store
  import opened WorkerSteps
  import opened Protocol
  import opened Invariant
  import opened Lifecycle
  import opened Containers
  import opened Accounting
  import opened ContainerTheorems
  import opened Slices
  import opened Simulation
  import opened Drain
  import opened Rounds
  import opened Paths
  import opened Solo

  // ---------- two active jobs ----------

  predicate TwoActive(jobs: map<JobId, Job>, j: JobId, k: JobId) {
    j != k && j in jobs && k in jobs && jobs[j].target == jobs[k].target && jobs[j].Active() && jobs[k].Active()
  }

  /** The state after a guard that passed has inserted its job. */
  predicate Inserted(s: Sys, t: Sys, j: JobId)
    requires j in s.reqs
  {
    && t.w == s.w.(jobs := s.w.jobs[j := s.reqs[j].job]) && t.reqs == s.reqs[j := s.reqs[j].(stage := Send)]
    && t.queue == s.queue && t.workers == s.workers && t.phase == s.phase && t.clock == s.clock && t.locking == s.locking
    && t.locks.Keys <= s.locks.Keys
  }

  /** A request past its row read is let through and inserts its job. */
  lemma GuardGoesOn(o: Sys, s: Sys, j: JobId, reply: Reply) returns (t: Sys)
    requires From(o, s) && s.phase == Up && j in s.reqs && s.reqs[j].job.id == j && Guarding(s.reqs[j])
    requires s.reqs[j].stage.CheckJobs? ==> CanServe(s, s.reqs[j], reply)
    ensures From(o, t) && Inserted(s, t, j)
    ensures t.hist == if s.reqs[j].stage.CheckJobs? then PastGuard(s, s.reqs[j].job, reply) else s.hist
  {
    var u := s;
    if s.reqs[j].stage.CheckJobs? {
      ReachMore(o, s, Serve(j, reply));
      u := Apply(s, Serve(j, reply));
    }
    ReachMore(o, u, Serve(j, Done));
    t := Apply(u, Serve(j, Done));
    assert u.reqs[j := Request(s.reqs[j].job, Send)] == s.reqs[j := Request(s.reqs[j].job, Send)];
  }

  /** Wherever a guard can pass while Create stands between its two writes of the container, two jobs of
      the container can come to be active together: a step that makes a container split can always be
      followed by what the theorem on mutual exclusion excludes. */
  lemma SplitAllowsTwo(s: Sys, j: JobId, k: JobId, reply: Reply) returns (t: Sys)
    requires Reachable(s) && s.phase == Up && j in s.reqs && k in s.reqs && s.reqs[j].job.target == s.reqs[k].job.target
    requires s.reqs[j].stage.CheckJobs? && CanServe(s, s.reqs[j], reply) && s.reqs[k].stage.NewJob?
    ensures From(s, t) && TwoActive(t.w.jobs, j, k) && t.w.jobs[j].target in t.hist.split
  {
    ReachableInv(s);
    FromItself(s);
    assert s.reqs[j].job.id == j && s.reqs[k].job.id == k && RequestOk(s.reqs[j], s.hist.rowIds) && RequestOk(s.reqs[k], s.hist.rowIds);
    var u := GuardGoesOn(s, s, j, reply);
    assert BetweenWrites(s, s.reqs[j].job.target);
    ReachMore(s, u, Serve(k, Done));
    t := Apply(u, Serve(k, Done));
  }

  /** With the mutex alone, wherever a guard's look-up can fail while the container has an active job, two
      jobs can come to be active together, though the status be the only thing that has been checked. */
  lemma UncheckedAllowsTwo(s: Sys, j: JobId, x: JobId) returns (t: Sys)
    requires Reachable(s) && s.phase == Up && !s.locking.rowLock && j in s.reqs && s.reqs[j].stage.CheckJobs?
    requires StatusAllows(s.reqs[j].job.kind, s.reqs[j].stage.seen.status)
    requires x in s.w.jobs && s.w.jobs[x].target == s.reqs[j].job.target && s.w.jobs[x].Active()
    ensures From(s, t) && TwoActive(t.w.jobs, j, x) && t.w.jobs[j].target in t.hist.unchecked
  {
    ReachableInv(s);
    FromItself(s);
    assert s.reqs[j].job.id == j && RequestOk(s.reqs[j], s.hist.rowIds);
    t := GuardGoesOn(s, s, j, Refused);
  }

  // ---------- the pool comes to rest beside a container without active jobs ----------

  /** t is later than s, and nothing about the container or the requests has moved. */
  ghost predicate RestedBeside(s: Sys, t: Sys, c: ContainerId) {
    && t.reqs == s.reqs && t.phase == s.phase && t.locks == s.locks && t.locking == s.locking && t.clock == s.clock
    && SameContainer(s.w, t.w, c) && !HasActiveJob(t.w, c)
  }

  lemma StepBeside(s: Sys, st: Step, c: ContainerId)
    requires Good(s) && Enabled(s, st) && WorkerStep(st) && !HasActiveJob(s.w, c)
    ensures RestedBeside(s, Apply(s, st), c)
  {
    if st.Answered? {
      assert WorkerOk(s.w.jobs, s.workers[st.i]);
      assert s.workers[st.i].job.target != c;
      AnsweredSlices(s, st.i, st.a);
      WorkAdvances(s, st.i, st.a);
    }
  }

  lemma {:induction false} RunBeside(s: Sys, run: seq<Step>, c: ContainerId)
    requires Good(s) && Feasible(s, run) && (forall k :: 0 <= k < |run| ==> WorkerStep(run[k])) && !HasActiveJob(s.w, c)
    ensures RestedBeside(s, Final(s, run), c)
    decreases |run|
  {
    if run != [] {
      StepGood(s, run[0]);
      StepBeside(s, run[0], c);
      RunBeside(Apply(s, run[0]), run[1..], c);
      BesideTwice(s, Apply(s, run[0]), Final(s, run), c);
    }
  }

  lemma BesideTwice(s: Sys, t: Sys, u: Sys, c: ContainerId)
    requires RestedBeside(s, t, c) && RestedBeside(t, u, c)
    ensures RestedBeside(s, u, c)
  {
  }

  lemma RestBeside(s: Sys, c: ContainerId) returns (t: Sys)
    requires Reachable(s) && s.phase == Up && s.locks == map[] && !HasActiveJob(s.w, c)
    ensures From(s, t) && RestedBeside(s, t, c) && Drained(t) && |t.workers| > 0
  {
    ReachableGood(s);
    ReachableReleased(s);
    var run := PoolComesToRest(s);
    RunBeside(s, run, c);
    RunReleased(s, run);
    t := Final(s, run);
  }

  // ---------- a running container is removed ----------

  /** Worker 0 is about to have Docker remove the running container d of this job. */
  predicate AboutToRemove(t: Sys, j: JobId, c: ContainerId, d: DockerId) {
    && |t.workers| > 0 && t.workers[0].Busy? && t.workers[0].job.id == j && t.workers[0].job.target == c
    && t.workers[0].pc == DockerRemove(d) && IsRunning(t.w, d)
  }

  lemma DeleteWorkedOff(o: Sys, s: Sys, job: Job, d: DockerId) returns (t: Sys)
    requires From(o, s) && s.phase == Up && s.queue == [job] && |s.workers| > 0 && s.workers[0].Idle? && job.target !in s.locks
    requires job.kind == DeleteContainer && HasDocker(s.w, job, d)
    ensures From(o, t) && t.w.rows == s.w.rows && t.w.docker == s.w.docker && SameAdmissions(s.hist, t.hist)
    ensures t.phase == Up && t.clock == s.clock && t.locks == s.locks
    ensures IsRunning(s.w, d) ==> AboutToRemove(t, job.id, job.target, d)
  {
    ReachMore(o, s, Take(0));
    var u := Apply(s, Take(0));
    UpToCall(s.w, job, d, Done, s.clock);
    t := WorkerRuns(o, u, 0, [Say(Done, d, s.clock), Ok(d, s.clock)]);
  }

  /** With the mutex alone, wherever the guard of a DELETE has yet to insert its job while the row carries a
      running Docker container and no job of the container is active, the DELETE can come to remove the
      running container; if the row says Running by the time of the look-up, the status was out of date. */
  lemma StaleDeleteRemoves(s: Sys, j: JobId, d: DockerId) returns (t: Sys)
    requires Reachable(s) && s.phase == Up && !s.locking.rowLock && j in s.reqs && Guarding(s.reqs[j])
    requires s.reqs[j].job.kind == DeleteContainer && StatusAllows(DeleteContainer, s.reqs[j].stage.seen.status)
    requires Linked(s.w, s.reqs[j].job.target, d) && IsRunning(s.w, d) && !HasActiveJob(s.w, s.reqs[j].job.target)
    ensures From(s, t) && AboutToRemove(t, j, s.reqs[j].job.target, d)
    ensures s.reqs[j].stage.CheckJobs? && s.w.rows[s.reqs[j].job.target].status == Running ==>
              s.reqs[j].job.target in t.hist.stale
    ensures t.phase == Up && RowOf(t.w, s.reqs[j].job.target) == RowOf(s.w, s.reqs[j].job.target) && t.locks == map[]
  {
    var job, c := s.reqs[j].job, s.reqs[j].job.target;
    NoRowLocks(s, j);
    var u := RestBeside(s, c);
    var v := GuardHandsOver(s, u, j);
    t := DeleteWorkedOff(s, v, job, d);
  }

  /** And then its row goes, whatever it says. */
  lemma RunningRowGoes(o: Sys, t: Sys, j: JobId, c: ContainerId, d: DockerId) returns (u: Sys, a: Answer)
    requires From(o, t) && t.phase == Up && AboutToRemove(t, j, c, d) && c in t.w.rows && t.locks == map[]
    ensures From(o, u) && c in u.w.rows && u.w.rows[c] == t.w.rows[c]
    ensures Enabled(u, Answered(0, a)) && c !in Apply(u, Answered(0, a)).w.rows
  {
    a := Answer(Done, d, t.clock);
    ReachMore(o, t, Answered(0, a));
    u := Apply(t, Answered(0, a));
  }

  lemma NoRowLocks(s: Sys, j: JobId)
    requires Reachable(s) && !s.locking.rowLock && j in s.reqs
    ensures s.locks == map[] && s.reqs[j].job.id == j
    ensures s.reqs[j].job.target in s.w.rows ==> RowOk(s.w.made, s.reqs[j].job.target, s.w.rows[s.reqs[j].job.target])
  {
    ReachableGood(s);
    ReachableReleased(s);
  }

  lemma GuardHandsOver(o: Sys, s: Sys, j: JobId) returns (t: Sys)
    requires From(o, s) && s.phase == Up && s.queue == [] && j in s.reqs && s.reqs[j].job.id == j && Guarding(s.reqs[j])
    requires s.reqs[j].stage.CheckJobs? ==> CanServe(s, s.reqs[j], Done)
    ensures From(o, t) && t.w.rows == s.w.rows && t.w.docker == s.w.docker && t.queue == [s.reqs[j].job]
    ensures t.workers == s.workers && t.phase == Up && t.locks.Keys <= s.locks.Keys
    ensures t.hist.stale == if s.reqs[j].stage.CheckJobs? then PastGuard(s, s.reqs[j].job, Done).stale else s.hist.stale
  {
    var u := GuardGoesOn(o, s, j, Done);
    ReachMore(o, u, Serve(j, Done));
    t := Apply(u, Serve(j, Done));
  }

  lemma {:induction false} AboveAll(ids: set<nat>) returns (n: nat)
    ensures forall j :: j in ids ==> j < n
    decreases |ids|
  {
    if ids == {} {
      n := 0;
    } else {
      var j :| j in ids;
      var m := AboveAll(ids - {j});
      n := if m <= j then j + 1 else m;
      assert forall k :: k in ids && k != j ==> k in ids - {j};
    }
  }

  /** A crash and a start-up whose recovery works but whose PENDING query fails: an empty channel, idle
      workers, and no job RUNNING. */
  lemma StartedAfresh(s: Sys) returns (t: Sys)
    requires Reachable(s)
    ensures From(s, t) && t.w == s.w.(jobs := MarkRunningAsFailed(s.w.jobs)) && t.phase == Up && t.queue == []
    ensures t.reqs == map[] && t.mutex == map[] && t.locks == map[] && t.locking == s.locking && t.clock == s.clock
    ensures |t.workers| > 0 && forall i :: 0 <= i < |t.workers| ==> t.workers[i].Idle?
    ensures SameAdmissions(s.hist, t.hist)
  {
    ReachableInv(s);
    ReachableReleased(s);
    var b := Recovered(s);
    var listing := SomeListing(b.w.jobs);
    ReachMore(s, b, Requeue(listing, 0));
    t := Apply(b, Requeue(listing, 0));
    assert listing[..0] == [];
  }

  lemma Recovered(s: Sys) returns (t: Sys)
    ensures From(s, t) && t == SweepUp(Fall(s), Done)
  {
    FromItself(s);
    ReachMore(s, s, Crash);
    ReachMore(s, Fall(s), Recover(Done));
    t := SweepUp(Fall(s), Done);
  }

  /** Under any locks, whenever the row of a container that has no PENDING job trails Docker (it does not
      say Running, but carries a running Docker container), a DELETE can be admitted after a restart and
      come to remove the running container. */
  lemma TrailingRowRemoved(s: Sys, c: ContainerId, d: DockerId) returns (t: Sys, j: JobId)
    requires Reachable(s) && Linked(s.w, c, d) && s.w.rows[c].status != Running && IsRunning(s.w, d)
    requires forall x :: x in PendingJobs(s.w.jobs) ==> s.w.jobs[x].target != c
    ensures From(s, t) && AboutToRemove(t, j, c, d) && SameAdmissions(s.hist, t.hist.(jobIds := s.hist.jobIds))
  {
    ReachableGood(s);
    assert RowOk(s.w.made, c, s.w.rows[c]);
    var u := StartedAfresh(s);
    j := AboveAll(s.hist.jobIds);
    var job := Job(j, s.w.rows[c].owner, c, DeleteContainer, JobPending, None, u.clock, None);
    assert !HasActiveJob(u.w, c) by {
      assert forall x :: x in u.w.jobs && u.w.jobs[x].Active() ==> x in PendingJobs(s.w.jobs) && u.w.jobs[x].target == s.w.jobs[x].target;
    }
    AdmitAlone(s, u, job);
    var v := Admitted(Known(u, j), job);
    assert v.queue == [job];
    t := DeleteWorkedOff(s, v, job, d);
  }

  /** So wherever a START job on an orderly container has Docker run what the row does not call Running,
      and its RUNNING write has taken effect, a crash can lead to the removal of the running container. */
  lemma CrashedStartRemoves(s: Sys, i: nat) returns (t: Sys, j: JobId, d: DockerId)
    requires Reachable(s) && i < |s.workers| && Launched(s.workers[i]) && Orderly(s.hist, s.workers[i].job.target)
    requires s.workers[i].job.id in RunningJobs(s.w.jobs)
    requires var c := s.workers[i].job.target;
      c in s.w.rows && s.w.rows[c].status != Running && s.w.rows[c].dockerId.Some? && IsRunning(s.w, s.w.rows[c].dockerId.value)
    ensures From(s, t) && AboutToRemove(t, j, s.workers[i].job.target, d) && Orderly(t.hist, s.workers[i].job.target)
  {
    ReachableGood(s);
    var p, c := s.workers[i], s.workers[i].job.target;
    assert WorkerOk(s.w.jobs, p);
    d := s.w.rows[c].dockerId.value;
    forall x | x in PendingJobs(s.w.jobs) ensures s.w.jobs[x].target != c {
      if s.w.jobs[x].target == c { OneActiveJob(s, x, p.job.id); }
    }
    t, j := TrailingRowRemoved(s, c, d);
  }

  // ---------- a Docker ID is replaced ----------

  /** On an orderly container a CREATE job never finds its row with an ID and the name free. */
  lemma CreateFindsNameTaken(s: Sys)
    requires Reachable(s) && |s.queue| > 0 && s.queue[0].kind == CreateContainer && Orderly(s.hist, s.queue[0].target)
    requires s.queue[0].target in s.w.rows && s.w.rows[s.queue[0].target].dockerId.Some?
    ensures NameTaken(s.w, s.queue[0].target)
  {
    ReachableGood(s);
    var c := s.queue[0].target;
    assert Image(s.w.jobs, s.queue[0]) && RowOk(s.w.made, c, s.w.rows[c]);
    assert JobSound(s, s.w.jobs[s.queue[0].id]);
    assert s.w.rows[c].dockerId.value in s.w.docker;
  }

  /** Wherever it does, and a worker is free to take it, it can give the row another Docker ID. */
  lemma CreateReplacesId(s: Sys, i: nat) returns (t: Sys)
    requires Reachable(s) && s.phase == Up && i < |s.workers| && s.workers[i].Idle?
    requires |s.queue| > 0 && s.queue[0].kind == CreateContainer
    requires s.queue[0].target in s.w.rows && s.w.rows[s.queue[0].target].dockerId.Some?
    requires !NameTaken(s.w, s.queue[0].target) && s.queue[0].target !in s.locks
    ensures From(s, t) && s.queue[0].target in t.w.rows && t.w.rows[s.queue[0].target].dockerId.Some?
    ensures t.w.rows[s.queue[0].target].dockerId != s.w.rows[s.queue[0].target].dockerId
  {
    ReachableGood(s);
    FromItself(s);
    var job, c := s.queue[0], s.queue[0].target;
    assert RowOk(s.w.made, c, s.w.rows[c]);
    var n := SerialAbove(s.w.made);
    var d := DockerId(c, n);
    t := CreateWorkedOff(s, s, i, d);
  }

  lemma CreateWorkedOff(o: Sys, s: Sys, i: nat, d: DockerId) returns (t: Sys)
    requires From(o, s) && s.phase == Up && i < |s.workers| && s.workers[i].Idle? && |s.queue| > 0
    requires Creatable(s.w, s.queue[0], d) && s.queue[0].target !in s.locks
    ensures From(o, t) && s.queue[0].target in t.w.rows && t.w.rows[s.queue[0].target].dockerId == Some(d)
  {
    var job := s.queue[0];
    ReachMore(o, s, Take(i));
    LaunchPath(s.w, job, d, Done, s.clock);
    var u := WorkerRuns(o, Apply(s, Take(i)), i, LaunchLog(d, Done, s.clock));
    SettlePath(u.w, u.workers[i], d, true, Done, s.clock);
    t := WorkerRuns(o, u, i, SettleLog(d, true, Done, s.clock));
  }

  // ---------- a failed job has changed its row ----------

  /** Wherever a worker is about to write or delete its row, a write that takes effect without being
      confirmed can make the job fail although the row is written or gone: a blurred write undoes
      "completely or not at all". */
  lemma {:induction false} BlurredWriteFails(o: Sys, s: Sys, i: nat) returns (t: Sys)
    requires From(o, s) && s.phase == Up && i < |s.workers| && s.workers[i].Busy? && s.workers[i].job.target !in s.locks
    requires s.workers[i].pc.WriteRow? || s.workers[i].pc.DropRow?
    requires s.workers[i].pc.WriteRow? ==> s.workers[i].pc.c.id == s.workers[i].job.target
    requires s.workers[i].pc.tries < UPDATE_RETRIES && s.workers[i].job.target in s.w.rows
    ensures From(o, t) && i < |t.workers| && t.workers[i].Busy? && t.workers[i].job == s.workers[i].job
    ensures t.workers[i].pc == Finish(Some(DatabaseError)) && t.workers[i].job.target in t.hist.blurred
    ensures var c, pc := s.workers[i].job.target, s.workers[i].pc;
      RowOf(t.w, c) == if pc.WriteRow? then Some(RowColumns(s.w.rows[c], pc.c)) else None
    decreases UPDATE_RETRIES - s.workers[i].pc.tries
  {
    var last := s.workers[i].pc.tries + 1 == UPDATE_RETRIES;
    var a := Answer(if last then Lost else Refused, DockerId(0, 0), s.clock);
    ReachMore(o, s, Answered(i, a));
    t := Apply(s, Answered(i, a));
    if !last { t := BlurredWriteFails(o, t, i); }
  }
}
