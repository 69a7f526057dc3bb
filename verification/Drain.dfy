/** Termination of the worker pool: how many steps are left, that one of them can always be taken,
    and how the jobs end. */
module Drain {
  import opened Domain
  import opened Store
  import opened WorkerSteps
  import opened Protocol
  import opened Invariant
  import opened Lifecycle
  import opened Jobs
  import opened ContainerTheorems

  // ---------- locks are given back ----------

  /** There are workers; and a lock is held by a request that still stands, for its own container,
      behind its lock stage. Without transactions no row is locked. */
  predicate Released(s: Sys) {
    && |s.workers| > 0 && (!s.locking.rowLock ==> s.locks == map[])
    && (forall c :: c in s.mutex ==> s.mutex[c] in s.reqs && s.reqs[s.mutex[c]].job.target == c)
    && (forall c :: c in s.locks ==>
          s.locks[c] in s.reqs && s.reqs[s.locks[c]].job.target == c && Guarding(s.reqs[s.locks[c]]))
  }

  lemma ReleasedLeave(s: Sys, r: Request)
    requires Released(s) && r.job.id in s.reqs && s.reqs[r.job.id].job.target == r.job.target
    ensures Released(Leave(s, r))
  {
  }

  lemma ReleasedPublish(s: Sys, r: Request)
    requires Released(s) && r.job.id in s.reqs && s.reqs[r.job.id] == r
    ensures Released(Publish(s, r))
  {
  }

  lemma ReleasedFound(s: Sys, r: Request, row: Container)
    requires Released(s) && r.job.id in s.reqs && s.reqs[r.job.id] == r && r.stage.NewRow?
    ensures Released(Found(s, r, row))
  {
  }

  lemma ReleasedGuard(s: Sys, r: Request, reply: Reply)
    requires Released(s) && r.job.id in s.reqs && s.reqs[r.job.id] == r && CanServe(s, r, reply)
    requires r.stage.AwaitMutex? || r.stage.AwaitRow? || r.stage.CheckJobs?
    ensures Released(ServeNext(s, r, reply))
  {
  }

  lemma ReleasedServe(s: Sys, r: Request, reply: Reply)
    requires Released(s) && r.job.id in s.reqs && s.reqs[r.job.id] == r && CanServe(s, r, reply)
    ensures Released(ServeNext(s, r, reply))
  {
    ReleasedLeave(s, r);
    if r.stage.NewRow? {
      ReleasedFound(s, r, r.stage.row);
      ReleasedLeave(Found(s, r, r.stage.row), r);
    } else if r.stage.Insert? || r.stage.NewJob? {
      ReleasedPublish(s, r);
      ReleasedLeave(Publish(s, r), r);
    } else if !r.stage.Send? {
      ReleasedGuard(s, r, reply);
    }
  }

  lemma ReleasedStep(s: Sys, st: Step)
    requires Keyed(s) && Released(s) && Enabled(s, st)
    ensures Released(Apply(s, st))
  {
    match st
    case Serve(j, reply) => ReleasedServe(s, s.reqs[j], reply);
    case Quit(j) => ReleasedLeave(s, s.reqs[j]);
    case CallGuarded(job) => assert job.id !in s.reqs;
    case CallCreate(job, _) => assert job.id !in s.reqs;
    case _ =>
  }

  lemma {:induction false} RunReleased(s: Sys, run: seq<Step>)
    requires Inv(s) && Released(s) && Feasible(s, run)
    ensures Released(Final(s, run))
    decreases |run|
  {
    if run != [] {
      StepInv(s, run[0]);
      ReleasedStep(s, run[0]);
      RunReleased(Apply(s, run[0]), run[1..]);
    }
  }

  lemma ReachableReleased(s: Sys)
    requires Reachable(s)
    ensures Good(s) && Released(s)
  {
    ReachableGood(s);
    var s0, run :| Init(s0) && Feasible(s0, run) && s == Final(s0, run);
    InitInv(s0);
    RunReleased(s0, run);
  }

  // ---------- the measure ----------

  function TriesLeft(tries: nat): nat { if tries < UPDATE_RETRIES then UPDATE_RETRIES - tries else 1 }

  /** At most how many calls a worker still waits for before it is idle again. */
  function Remaining(p: Proc): nat {
    if p.Idle? then 0
    else match p.pc
         case Finish(_) => 1
         case Cleanup(_) => 2
         case WriteRow(_, tries) => TriesLeft(tries) + 1
         case DropRow(tries) => TriesLeft(tries) + 1
         case Inspect(_, _) => UPDATE_RETRIES + 2
         case DockerStop(_, _) => UPDATE_RETRIES + 2
         case DockerRemove(_) => UPDATE_RETRIES + 2
         case WaitExit(_, _) => UPDATE_RETRIES + 3
         case DockerStart(_, _) => UPDATE_RETRIES + 4
         case FirstStart(_, _) => UPDATE_RETRIES + 4
         case DockerCreate(_) => UPDATE_RETRIES + 5
         case Mkdir(_) => UPDATE_RETRIES + 6
         case Fetch => UPDATE_RETRIES + 7
         case Mark => UPDATE_RETRIES + 8
  }

  const JOB_STEPS: nat := UPDATE_RETRIES + 9

  function Total(workers: seq<Proc>): nat {
    if workers == [] then 0 else Remaining(workers[0]) + Total(workers[1..])
  }

  function Measure(s: Sys): nat { JOB_STEPS * |s.queue| + Total(s.workers) }

  lemma WorkLowers(w: World, p: Proc, a: Answer)
    requires p.Busy?
    ensures Remaining(Work(w, p, a).proc) < Remaining(p) < JOB_STEPS
  {
  }

  lemma {:induction false} TotalUpdate(workers: seq<Proc>, i: nat, p: Proc)
    requires i < |workers|
    ensures Total(workers[i := p]) + Remaining(workers[i]) == Total(workers) + Remaining(p)
  {
    if i == 0 {
      assert workers[0 := p][1..] == workers[1..];
    } else {
      assert workers[i := p][1..] == workers[1..][i - 1 := p];
      TotalUpdate(workers[1..], i - 1, p);
    }
  }

  predicate WorkerStep(st: Step) { st.Take? || st.Answered? }

  /** No request moves and the process stays up; workers, cleaner, clock and Docker go on. */
  predicate Drains(st: Step) { WorkerStep(st) || st.Halts? || st.Tick? || st.Clean? }

  /** Every worker step lowers the measure, and nothing else in a drain touches it. */
  lemma StepLowers(s: Sys, st: Step)
    requires Enabled(s, st) && Drains(st)
    ensures if WorkerStep(st) then Measure(Apply(s, st)) < Measure(s) else Measure(Apply(s, st)) == Measure(s)
  {
    match st
    case Take(i) => TotalUpdate(s.workers, i, TakeJob(s, i).workers[i]);
    case Answered(i, a) =>
      WorkLowers(s.w, s.workers[i], a);
      TotalUpdate(s.workers, i, Work(s.w, s.workers[i], a).proc);
    case _ =>
  }

  function PoolSteps(run: seq<Step>): nat {
    if run == [] then 0 else (if WorkerStep(run[0]) then 1 else 0) + PoolSteps(run[1..])
  }

  /** Once requests have stopped, the steps the pool takes are paid for by the measure, whatever
      fails and whatever stops by itself. */
  lemma {:induction false} DrainIsBounded(s: Sys, run: seq<Step>)
    requires Feasible(s, run) && forall k :: 0 <= k < |run| ==> Drains(run[k])
    ensures PoolSteps(run) + Measure(Final(s, run)) <= Measure(s)
    decreases |run|
  {
    if run != [] {
      StepLowers(s, run[0]);
      DrainIsBounded(Apply(s, run[0]), run[1..]);
    }
  }

  lemma {:induction false} MeasureBound(workers: seq<Proc>)
    ensures Total(workers) <= (JOB_STEPS - 1) * |workers|
    ensures Total(workers) == 0 <==> forall i :: 0 <= i < |workers| ==> workers[i].Idle?
  {
    if workers != [] {
      MeasureBound(workers[1..]);
      assert forall i :: 1 <= i < |workers| ==> workers[i] == workers[1..][i - 1];
      assert (forall i :: 0 <= i < |workers| ==> workers[i].Idle?) <==>
          workers[0].Idle? && forall i :: 0 <= i < |workers[1..]| ==> workers[1..][i].Idle?;
    }
  }

  /** The same bound in plain numbers: twelve steps for each queued job, eleven for each worker. */
  lemma DrainTerminates(s: Sys, run: seq<Step>)
    requires Feasible(s, run) && forall k :: 0 <= k < |run| ==> Drains(run[k])
    ensures PoolSteps(run) <= 12 * |s.queue| + 11 * |s.workers|
    ensures PoolSteps(run) == Measure(s) ==> Drained(Final(s, run))
  {
    DrainIsBounded(s, run);
    MeasureBound(s.workers);
    MeasureBound(Final(s, run).workers);
  }

  predicate Drained(s: Sys) { s.queue == [] && forall i :: 0 <= i < |s.workers| ==> s.workers[i].Idle? }

  // ---------- progress ----------

  lemma {:induction false} SerialAbove(made: set<DockerId>) returns (n: nat)
    ensures forall d :: d in made ==> d.serial < n
    decreases |made|
  {
    if made == {} {
      n := 0;
    } else {
      var d :| d in made;
      var m := SerialAbove(made - {d});
      n := if m <= d.serial then d.serial + 1 else m;
      assert forall e :: e in made && e != d ==> e in made - {d};
    }
  }

  /** Whatever call a worker waits on, the environment can answer it; the job writes, and every
      other call but a wait, can even succeed. */
  lemma SomeAnswer(s: Sys, p: Proc) returns (a: Answer)
    requires p.Busy?
    ensures Allowed(s.w, p.pc, a) && a.now == s.clock
    ensures !p.pc.WaitExit? ==> a.reply == Done
  {
    var n := SerialAbove(s.w.made);
    var name := match p.pc case DockerCreate(c) => c.id case _ => 0;
    a := Answer(if p.pc.WaitExit? then Refused else Done, DockerId(name, n), s.clock);
  }

  /** The pool never deadlocks: while work is left, a worker can move, unless every busy worker waits
      for a row lock; then the request that holds it can give up its transaction at once. */
  lemma Progress(s: Sys) returns (st: Step)
    requires Reachable(s) && s.phase == Up && !Drained(s)
    ensures Enabled(s, st)
    ensures WorkerStep(st) || (st.Quit? && exists c :: c in s.locks && s.locks[c] == st.id)
    ensures s.locks == map[] ==> WorkerStep(st)
    ensures WorkerStep(st) ==> JobWriteSucceeds(s, st)
  {
    ReachableReleased(s);
    st := ProgressFrom(s);
  }

  predicate JobWriteSucceeds(s: Sys, st: Step)
    requires Enabled(s, st)
  {
    st.Answered? && (s.workers[st.i].pc.Mark? || s.workers[st.i].pc.Finish?) ==> st.a.reply.TookEffect()
  }

  lemma ProgressFrom(s: Sys) returns (st: Step)
    requires Released(s) && s.phase == Up && !Drained(s)
    ensures Enabled(s, st)
    ensures WorkerStep(st) || (st.Quit? && exists c :: c in s.locks && s.locks[c] == st.id)
    ensures s.locks == map[] ==> WorkerStep(st)
    ensures WorkerStep(st) ==> JobWriteSucceeds(s, st)
  {
    if i: nat :| i < |s.workers| && s.workers[i].Busy? {
      if Blocked(s, s.workers[i]) {
        st := Quit(s.locks[s.workers[i].job.target]);
      } else {
        var a := SomeAnswer(s, s.workers[i]);
        st := Answered(i, a);
      }
    } else {
      assert s.workers[0].Idle?;
      st := Take(0);
    }
  }

  lemma DrainKeeps(s: Sys, st: Step)
    requires Enabled(s, st) && Drains(st)
    ensures Apply(s, st).reqs == s.reqs && Apply(s, st).phase == s.phase && Apply(s, st).locks == s.locks
  {
  }

  // ---------- how the jobs end ----------

  predicate Underway(s: Sys, j: JobId) { Queued(s.queue, j) || Held(s.workers, j) }

  predicate Handled(s: Sys, j: JobId) { Underway(s, j) || (j in s.w.jobs ==> s.w.jobs[j].Ended()) }

  lemma HandledTake(s: Sys, i: nat, j: JobId)
    requires i < |s.workers| && s.workers[i].Idle? && |s.queue| > 0 && Underway(s, j)
    ensures Underway(TakeJob(s, i), j)
  {
    var t := TakeJob(s, i);
    if Queued(s.queue, j) {
      var k :| 0 <= k < |s.queue| && s.queue[k].id == j;
      if k == 0 { assert t.workers[i].job.id == j; } else { assert t.queue[k - 1].id == j; }
    } else {
      var k :| 0 <= k < |s.workers| && s.workers[k].Busy? && s.workers[k].job.id == j;
      assert t.workers[k] == s.workers[k];
    }
  }

  lemma HandledWork(s: Sys, i: nat, a: Answer, j: JobId)
    requires Inv(s) && i < |s.workers| && s.workers[i].Busy? && Handled(s, j)
    requires s.workers[i].pc.Finish? ==> a.reply.TookEffect()
    ensures Handled(WorkOn(s, i, a), j)
  {
    var p, t := s.workers[i], WorkOn(s, i, a);
    assert WorkerOk(s.w.jobs, p);
    WorkOnJobs(s.w, p, a);
    WorkOnProc(s.w, p, a);
    if j == p.job.id {
      if !p.pc.Finish? { assert t.workers[i].Busy? && t.workers[i].job.id == j; }
    } else if Held(s.workers, j) {
      var k :| 0 <= k < |s.workers| && s.workers[k].Busy? && s.workers[k].job.id == j;
      assert t.workers[k] == s.workers[k];
    }
  }

  lemma HandledServe(s: Sys, k: JobId, reply: Reply, j: JobId)
    requires Inv(s) && k in s.reqs && k != j && Handled(s, j)
    ensures Handled(ServeNext(s, s.reqs[k], reply), j)
  {
    var t := ServeNext(s, s.reqs[k], reply);
    ServeReach(s, s.reqs[k], reply);
    assert s.reqs[k].job.id == k;
    if Queued(s.queue, j) {
      var n :| 0 <= n < |s.queue| && s.queue[n].id == j;
      ServeAppends(s, s.reqs[k], reply);
      assert t.queue[n].id == j;
    }
  }

  lemma StepHandled(s: Sys, st: Step, j: JobId)
    requires Inv(s) && Enabled(s, st) && Calm(st) && JobWriteSucceeds(s, st) && Handled(s, j)
    requires j !in s.reqs
    ensures Handled(Apply(s, st), j)
  {
    match st
    case Serve(k, reply) => HandledServe(s, k, reply, j);
    case Take(i) => if Underway(s, j) { HandledTake(s, i, j); }
    case Answered(i, a) => HandledWork(s, i, a, j);
    case _ =>
  }

  predicate JobWritesSucceed(s: Sys, run: seq<Step>)
    requires Feasible(s, run)
    decreases |run|
  {
    run == [] || (JobWriteSucceeds(s, run[0]) && JobWritesSucceed(Apply(s, run[0]), run[1..]))
  }

  lemma StaysOutside(s: Sys, st: Step, j: JobId)
    requires Keyed(s) && Enabled(s, st) && j in s.hist.jobIds && j !in s.reqs
    ensures j in Apply(s, st).hist.jobIds && j !in Apply(s, st).reqs
  {
    match st
    case Serve(k, reply) => ServeReach(s, s.reqs[k], reply);
    case _ =>
  }

  lemma UnderwayOutside(s: Sys, j: JobId)
    requires Inv(s) && Underway(s, j)
    ensures j in s.hist.jobIds && j !in s.reqs
  {
    if Queued(s.queue, j) {
      var k :| 0 <= k < |s.queue| && s.queue[k].id == j;
      assert Image(s.w.jobs, s.queue[k]);
    } else {
      var k :| 0 <= k < |s.workers| && s.workers[k].Busy? && s.workers[k].job.id == j;
      assert WorkerOk(s.w.jobs, s.workers[k]);
    }
  }

  lemma {:induction false} RunHandled(s: Sys, run: seq<Step>, j: JobId)
    requires Inv(s) && Feasible(s, run) && Handled(s, j) && j in s.hist.jobIds && j !in s.reqs
    requires JobWritesSucceed(s, run) && forall k :: 0 <= k < |run| ==> Calm(run[k])
    ensures Handled(Final(s, run), j)
    decreases |run|
  {
    if run != [] {
      StepInv(s, run[0]);
      StepHandled(s, run[0], j);
      StaysOutside(s, run[0], j);
      RunHandled(Apply(s, run[0]), run[1..], j);
    }
  }

  /** When the status writes of jobs succeed and the pool has come to rest, every job that was in
      the channel or in a worker has ended SUCCESS or FAILED, whatever was requested meanwhile. */
  lemma DrainEndsEveryJob(s: Sys, run: seq<Step>, j: JobId)
    requires Reachable(s) && Feasible(s, run) && Underway(s, j)
    requires JobWritesSucceed(s, run) && forall k :: 0 <= k < |run| ==> Calm(run[k])
    requires Drained(Final(s, run))
    ensures j in Final(s, run).w.jobs ==> Final(s, run).w.jobs[j].Ended()
  {
    ReachableInv(s);
    UnderwayOutside(s, j);
    RunHandled(s, run, j);
  }

  /** While no request holds a row lock, the pool comes to rest within its measure from every reachable
      state, without moving any request. */
  lemma PoolComesToRest(s: Sys) returns (run: seq<Step>)
    requires Reachable(s) && s.phase == Up && s.locks == map[]
    ensures Feasible(s, run) && JobWritesSucceed(s, run) && Drained(Final(s, run))
    ensures |run| <= Measure(s) && forall k :: 0 <= k < |run| ==> WorkerStep(run[k])
  {
    ReachableReleased(s);
    run := RestFrom(s);
  }

  lemma {:induction false} RestFrom(s: Sys) returns (run: seq<Step>)
    requires Inv(s) && Released(s) && s.phase == Up && s.locks == map[]
    ensures Feasible(s, run) && JobWritesSucceed(s, run) && Drained(Final(s, run))
    ensures |run| <= Measure(s) && forall k :: 0 <= k < |run| ==> WorkerStep(run[k])
    decreases Measure(s)
  {
    if Drained(s) {
      run := [];
    } else {
      var st := ProgressFrom(s);
      var t := Apply(s, st);
      StepInv(s, st);
      ReleasedStep(s, st);
      StepLowers(s, st);
      DrainKeeps(s, st);
      var rest := RestFrom(t);
      run := [st] + rest;
      assert run[1..] == rest;
    }
  }
}
