/** What is let in: which statuses each request needs, and that a user's containers have different names. */
module Admission {
  import opened Domain
  import opened Store
  import opened WorkerSteps
  import opened Protocol
  import opened Invariant
  import opened Lifecycle
  import opened Accounting
  import opened ContainerTheorems
  import opened RowHistory
  import opened Solo

  // ---------- statuses ----------

  /** The owner of a container whose row says Running can have it stopped, and the owner of one whose row
      says anything else can have it started or deleted: without rivals and active jobs, with room in the
      channel and all calls answered, the job is inserted and queued. */
  lemma OwnersRequestAdmitted(o: Sys, s: Sys, job: Job)
    requires From(o, s) && Enabled(s, CallGuarded(job)) && Uncontended(s, job) && !BetweenWrites(s, job.target)
    requires job.target in s.w.rows && s.w.rows[job.target].owner == job.user
    requires !HasActiveJob(s.w, job.target) && |s.queue| < CHANNEL_CAPACITY
    requires job.kind == StopContainer ==> s.w.rows[job.target].status == Running
    requires job.kind == StartContainer || job.kind == DeleteContainer ==> s.w.rows[job.target].status != Running
    ensures From(o, s.(w := s.w.(jobs := s.w.jobs[job.id := job]), queue := s.queue + [job],
                       hist := s.hist.(jobIds := s.hist.jobIds + {job.id})))
  {
    AdmitAlone(o, s, job);
  }

  /** No request passes its guard unless the row it has read says what the request needs; with the row lock the
      row still says so. A Stop needs Running, a Start or a Delete anything else. */
  lemma StatusNeeded(s: Sys, j: JobId, reply: Reply)
    requires Reachable(s) && Enabled(s, Serve(j, reply)) && s.reqs[j].stage.CheckJobs?
    ensures var kind, seen := s.reqs[j].job.kind, s.reqs[j].stage.seen;
      && kind != CreateContainer
      && (seen.status == Running <==> kind == StopContainer)
      && (s.locking.rowLock ==>
            && s.reqs[j].job.target in s.w.rows
            && (s.w.rows[s.reqs[j].job.target].status == Running <==> kind == StopContainer))
  {
    ReachableGood(s);
    assert RequestOk(s.reqs[j], s.hist.rowIds) && RequestSound(s, s.reqs[j]);
  }

  /** What a guard has read is the row at that moment, and it goes on only for the owner. */
  lemma GuardReadsRow(s: Sys, j: JobId, reply: Reply)
    requires Enabled(s, Serve(j, reply)) && s.reqs[j].stage.AwaitRow? && s.reqs[j].job.id == j
    ensures var t, c := Apply(s, Serve(j, reply)), s.reqs[j].job.target;
      && c in s.w.rows && s.w.rows[c].owner == s.reqs[j].job.user
      && j in t.reqs && t.reqs[j] == s.reqs[j].(stage := CheckJobs(s.w.rows[c]))
      && (s.locking.rowLock ==> c !in s.locks && c in t.locks && t.locks[c] == j)
  {
  }

  // ---------- names ----------

  /** The worker's copy of a container row, if it has one. */
  function CopyOf(p: Proc): Option<Container> {
    if p.Idle? then None
    else match p.pc
         case Mkdir(c) => Some(c)
         case DockerCreate(c) => Some(c)
         case FirstStart(c, _) => Some(c)
         case DockerStart(c, _) => Some(c)
         case WaitExit(c, _) => Some(c)
         case Inspect(c, _) => Some(c)
         case DockerStop(c, _) => Some(c)
         case WriteRow(c, _) => Some(c)
         case _ => None
  }

  /** It has the name, and the environment and the command, that the row has. */
  predicate CopyOk(w: World, p: Proc) {
    CopyOf(p).Some? && p.job.target in w.rows ==>
      var c, row := CopyOf(p).value, w.rows[p.job.target];
      c.id == p.job.target && c.name == row.name && c.environment == row.environment && c.command == row.command
  }

  predicate NamesDiffer(rows: map<ContainerId, Container>) {
    forall c, e :: c in rows && e in rows && c != e && rows[c].owner == rows[e].owner ==> rows[c].name != rows[e].name
  }

  predicate Named(s: Sys) { NamesDiffer(s.w.rows) && forall i :: 0 <= i < |s.workers| ==> CopyOk(s.w, s.workers[i]) }

  /** The rows that are left have kept owner, name, environment and command. */
  predicate SameNames(rows: map<ContainerId, Container>, rows': map<ContainerId, Container>) {
    forall c :: c in rows' ==>
      && c in rows && rows'[c].owner == rows[c].owner && rows'[c].name == rows[c].name
      && rows'[c].environment == rows[c].environment && rows'[c].command == rows[c].command
  }

  lemma WorkNames(w: World, p: Proc, a: Answer)
    requires p.Busy? && ProcOk(w.made, p) && CopyOk(w, p) && (p.job.target in w.rows ==> w.rows[p.job.target].id == p.job.target)
    ensures var o := Work(w, p, a); SameNames(w.rows, o.world.rows) && CopyOk(o.world, o.proc)
  {
    WorkOnRows(w, p, a);
    if p.pc.WriteRow? || p.pc.DropRow? { WriteNames(w, p, a); }
  }

  lemma WriteNames(w: World, p: Proc, a: Answer)
    requires p.Busy? && ProcOk(w.made, p) && CopyOk(w, p) && (p.pc.WriteRow? || p.pc.DropRow?)
    ensures var o := Work(w, p, a); SameNames(w.rows, o.world.rows) && CopyOk(o.world, o.proc)
  {
  }

  lemma WorkNamed(s: Sys, i: nat, a: Answer)
    requires Good(s) && Named(s) && i < |s.workers| && s.workers[i].Busy?
    ensures Named(WorkOn(s, i, a)) && SameNames(s.w.rows, WorkOn(s, i, a).w.rows)
  {
    var t := WorkOn(s, i, a);
    assert ProcOk(s.w.made, s.workers[i]) && CopyOk(s.w, s.workers[i]);
    WorkNames(s.w, s.workers[i], a);
    forall k | 0 <= k < |t.workers| ensures CopyOk(t.w, t.workers[k]) { assert CopyOk(s.w, s.workers[k]); }
  }

  lemma FoundNamed(s: Sys, r: Request)
    requires Inv(s) && Named(s) && r.job.id in s.reqs && s.reqs[r.job.id] == r && r.stage.NewRow? && NameFree(s.w, r.stage.row)
    ensures Named(Found(s, r, r.stage.row))
  {
    var t := Found(s, r, r.stage.row);
    FoundAlone(s, r);
    assert RequestOk(r, s.hist.rowIds);
    forall k | 0 <= k < |t.workers| ensures CopyOk(t.w, t.workers[k]) { assert CopyOk(s.w, s.workers[k]); }
  }

  lemma ServeNamed(s: Sys, j: JobId, reply: Reply)
    requires Inv(s) && Named(s) && j in s.reqs && CanServe(s, s.reqs[j], reply)
    ensures Named(ServeNext(s, s.reqs[j], reply))
  {
    var r, t := s.reqs[j], ServeNext(s, s.reqs[j], reply);
    ServeReach(s, r, reply);
    assert r.job.id == j;
    if r.stage.NewRow? { FoundNamed(s, r); }
    forall k | 0 <= k < |t.workers| ensures CopyOk(t.w, t.workers[k]) {
      assert CopyOk(s.w, s.workers[k]);
      if t.w.rows != s.w.rows { assert CopyOk(Found(s, r, r.stage.row).w, s.workers[k]); }
    }
  }

  lemma StepNamed(s: Sys, st: Step)
    requires Good(s) && Named(s) && Enabled(s, st)
    ensures Named(Apply(s, st))
  {
    match st
    case Serve(j, reply) => ServeNamed(s, j, reply);
    case Answered(i, a) => WorkNamed(s, i, a);
    case _ => RowsStay(s, st);
  }

  lemma RowsStay(s: Sys, st: Step)
    requires Named(s) && Enabled(s, st) && !st.Serve? && !st.Answered?
    ensures Named(Apply(s, st)) && Apply(s, st).w.rows == s.w.rows
  {
  }

  lemma {:induction false} RunNamed(s: Sys, run: seq<Step>)
    requires Good(s) && Named(s) && Feasible(s, run)
    ensures Named(Final(s, run))
    decreases |run|
  {
    if run != [] {
      StepGood(s, run[0]);
      StepNamed(s, run[0]);
      RunNamed(Apply(s, run[0]), run[1..]);
    }
  }

  lemma ReachableNamed(s: Sys)
    requires Reachable(s)
    ensures Good(s) && Named(s)
  {
    var s0, run :| Init(s0) && Feasible(s0, run) && s == Final(s0, run);
    InitGood(s0);
    RunNamed(s0, run);
    ReachableGood(s);
  }

  /** In every reachable state two containers of one user have different names. */
  lemma NamesAreUnique(s: Sys, c: ContainerId, e: ContainerId)
    requires Reachable(s) && c in s.w.rows && e in s.w.rows && c != e && s.w.rows[c].owner == s.w.rows[e].owner
    ensures s.w.rows[c].name != s.w.rows[e].name
  {
    ReachableNamed(s);
  }

  /** The name of another user's container is free: with such a name, as with a new one, Create can write its
      row. With the name of a container of the same user it cannot, however often it tries. */
  lemma NamesAreTheUsersOwn(o: Sys, s: Sys, job: Job, row: Container)
    requires From(o, s) && Enabled(s, CallCreate(job, row))
    ensures (forall c :: c in s.w.rows && s.w.rows[c].name == row.name ==> s.w.rows[c].owner != row.owner) ==>
              From(o, Founded(s, job, row))
    ensures forall c, reply :: c in s.w.rows && s.w.rows[c].name == row.name && s.w.rows[c].owner == row.owner ==>
              !Enabled(Apply(s, CallCreate(job, row)), Serve(job.id, reply))
  {
    if forall c :: c in s.w.rows && s.w.rows[c].name == row.name ==> s.w.rows[c].owner != row.owner {
      RowMade(o, s, job, row);
    }
  }

  /** Only status, Docker ID and time of update differ. */
  predicate SameContainerBut(row: Container, later: Container) {
    later == row.(status := later.status, dockerId := later.dockerId, updatedAt := later.updatedAt)
  }

  lemma AnsweredKeeps(s: Sys, i: nat, a: Answer, c: ContainerId)
    requires Good(s) && Named(s) && i < |s.workers| && s.workers[i].Busy? && c in s.w.rows && c in WorkOn(s, i, a).w.rows
    ensures SameContainerBut(s.w.rows[c], WorkOn(s, i, a).w.rows[c])
  {
    WorkNamed(s, i, a);
    WorkOnRows(s.w, s.workers[i], a);
    assert ProcOk(s.w.made, s.workers[i]);
  }

  lemma StepKeeps(s: Sys, st: Step, c: ContainerId)
    requires Good(s) && Named(s) && Enabled(s, st) && c in s.w.rows && c in Apply(s, st).w.rows
    ensures SameContainerBut(s.w.rows[c], Apply(s, st).w.rows[c])
  {
    if st.Answered? { AnsweredKeeps(s, st.i, st.a, c); } else { StepRow(s, st, c); }
  }

  /** Over any run, with crashes and restarts, as long as a container row exists, nothing but its status, its
      Docker ID and its time of update changes in it. */
  lemma RowsKeepTheirData(s: Sys, run: seq<Step>, c: ContainerId)
    requires Reachable(s) && Feasible(s, run) && c in s.w.rows && c in Final(s, run).w.rows
    ensures var row, later := s.w.rows[c], Final(s, run).w.rows[c];
      later == row.(status := later.status, dockerId := later.dockerId, updatedAt := later.updatedAt)
  {
    ReachableNamed(s);
    RunKeepsNames(s, run, c);
  }

  lemma {:induction false} RunKeepsNames(s: Sys, run: seq<Step>, c: ContainerId)
    requires Good(s) && Named(s) && Feasible(s, run) && c in s.w.rows && c in Final(s, run).w.rows
    ensures SameContainerBut(s.w.rows[c], Final(s, run).w.rows[c])
    decreases |run|
  {
    if run != [] {
      StepGood(s, run[0]);
      StepNamed(s, run[0]);
      RowStays(s, run, c);
      StepKeeps(s, run[0], c);
      RunKeepsNames(Apply(s, run[0]), run[1..], c);
    }
  }

  /** A row that is there at the end was there after the first step. */
  lemma RowStays(s: Sys, run: seq<Step>, c: ContainerId)
    requires Good(s) && run != [] && Feasible(s, run) && c in s.w.rows && c in Final(s, run).w.rows
    ensures c in Apply(s, run[0]).w.rows
  {
    if c !in Apply(s, run[0]).w.rows {
      StepGood(s, run[0]);
      RemovedIsAbsent(s, run[0], c);
      AbsentStays(Apply(s, run[0]), run[1..], c);
    }
  }
}
