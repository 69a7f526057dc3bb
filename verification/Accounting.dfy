/** The container facts of all orderly containers together, kept by every step of every run. */
module Accounting {
  import opened Domain
  import opened Store
  import opened WorkerSteps
  import opened Protocol
  import opened Invariant
  import opened Lifecycle
  import opened Containers

  predicate LaunchedOn(workers: seq<Proc>, c: ContainerId) {
    exists i :: 0 <= i < |workers| && Launched(workers[i]) && workers[i].job.target == c
  }

  predicate JobSound(s: Sys, job: Job) {
    var c := job.target;
    job.Active() ==>
      && (job.kind == CreateContainer ==> c !in s.hist.born && (Orderly(s.hist, c) ==> Backed(s.w, c)))
      && (job.kind == DeleteContainer && Orderly(s.hist, c) && c !in s.hist.stale ==> NotRunning(s.w, c))
  }

  predicate RequestSound(s: Sys, r: Request) {
    var c := r.job.target;
    && (Founds(r) ==> c !in s.hist.born && (Orderly(s.hist, c) ==> Unlinked(s.w, c)))
    && (Guarding(r) && s.locking.rowLock ==> c in s.w.rows && s.w.rows[c] == r.stage.seen)
    && (r.stage.Insert? ==> StatusAllows(r.job.kind, r.stage.seen.status))
    && (r.stage.Insert? && r.job.kind == DeleteContainer && Orderly(s.hist, c) && c !in s.hist.stale ==> NotRunning(s.w, c))
  }

  predicate ContainerSound(s: Sys, c: ContainerId) {
    Orderly(s.hist, c) ==>
      && (c in s.hist.born ==> Rooted(s.w, c))
      && (c !in s.hist.drift && !LaunchedOn(s.workers, c) ==> Quiet(s.w, c))
  }

  predicate WorkerSound(s: Sys, p: Proc) {
    p.Busy? && Orderly(s.hist, p.job.target) ==> Local(s.w, s.hist.born, p)
  }

  ghost predicate Sound(s: Sys) {
    && s.hist.born <= s.hist.rowIds && (s.locking.rowLock ==> s.hist.stale == {})
    && (forall j :: j in s.w.jobs ==> JobSound(s, s.w.jobs[j]))
    && (forall j :: j in s.reqs ==> RequestSound(s, s.reqs[j]))
    && (forall c :: ContainerSound(s, c))
    && (forall i :: 0 <= i < |s.workers| ==> WorkerSound(s, s.workers[i]))
  }

  lemma OneActiveJob(s: Sys, x: JobId, y: JobId)
    requires Exclusive(s) && x in s.w.jobs && y in s.w.jobs && s.w.jobs[x].target == s.w.jobs[y].target
    requires s.w.jobs[x].Active() && s.w.jobs[y].Active() && Orderly(s.hist, s.w.jobs[x].target)
    ensures x == y
  {
    assert x != y ==> Coexist(s.hist, s.w.jobs[x], s.w.jobs[y]);
  }

  /** On an orderly container there is one worker. */
  lemma OneWorker(s: Sys, i: nat, k: nat)
    requires Inv(s) && i < |s.workers| && k < |s.workers| && s.workers[i].Busy? && s.workers[k].Busy?
    requires s.workers[i].job.target == s.workers[k].job.target && Orderly(s.hist, s.workers[i].job.target)
    ensures i == k
  {
    assert WorkerOk(s.w.jobs, s.workers[i]) && WorkerOk(s.w.jobs, s.workers[k]);
    OneActiveJob(s, s.workers[i].job.id, s.workers[k].job.id);
  }

  /** What a worker on an orderly container may assume when it moves. */
  lemma WorkerKnows(s: Sys, i: nat)
    requires Inv(s) && Sound(s) && i < |s.workers| && s.workers[i].Busy? && Orderly(s.hist, s.workers[i].job.target)
    ensures Knows(s.w, s.hist, s.workers[i])
  {
    var p := s.workers[i];
    assert WorkerOk(s.w.jobs, p) && WorkerSound(s, p);
    assert JobSound(s, s.w.jobs[p.job.id]);
    assert ContainerSound(s, p.job.target);
    if !Launched(p) && LaunchedOn(s.workers, p.job.target) {
      var k :| 0 <= k < |s.workers| && Launched(s.workers[k]) && s.workers[k].job.target == p.job.target;
      OneWorker(s, i, k);
    }
  }

  predicate CanWork(s: Sys, i: nat, a: Answer) {
    Inv(s) && Life(s) && i < |s.workers| && s.workers[i].Busy? && Allowed(s.w, s.workers[i].pc, a) && !Blocked(s, s.workers[i])
  }

  lemma OthersStill(s: Sys, i: nat, a: Answer, c: ContainerId)
    requires CanWork(s, i, a) && c != s.workers[i].job.target
    ensures StillBut(s.w, WorkOn(s, i, a).w, c)
  {
    WorkFrame(s.w, s.workers[i], a);
  }

  lemma WorkOwnFacts(s: Sys, i: nat, a: Answer)
    requires CanWork(s, i, a) && Sound(s) && Orderly(s.hist, s.workers[i].job.target)
    ensures StepLeaves(s.w, s.hist, s.workers[i], a)
  {
    WorkerKnows(s, i);
    assert ProcOk(s.w.made, s.workers[i]);
    AloneStep(s.w, s.hist, s.workers[i], a);
  }

  /** The job of another container. */
  lemma OtherJobSound(s: Sys, i: nat, a: Answer, job: Job)
    requires CanWork(s, i, a) && JobSound(s, job) && job.target != s.workers[i].job.target
    ensures JobSound(WorkOn(s, i, a), job)
  {
    OthersStill(s, i, a, job.target);
    StillKnows(s.w, WorkOn(s, i, a).w, job.target);
  }

  lemma WorkJobSound(s: Sys, i: nat, a: Answer, j: JobId)
    requires CanWork(s, i, a) && Sound(s) && j in WorkOn(s, i, a).w.jobs
    ensures JobSound(WorkOn(s, i, a), WorkOn(s, i, a).w.jobs[j])
  {
    var p, t := s.workers[i], WorkOn(s, i, a);
    WorkOnJobs(s.w, p, a);
    assert WorkerOk(s.w.jobs, p);
    assert JobSound(s, s.w.jobs[j]);
    assert j != p.job.id ==> Coexist(s.hist, s.w.jobs[j], s.w.jobs[p.job.id]);
    if t.w.jobs[j].target != p.job.target {
      OtherJobSound(s, i, a, s.w.jobs[j]);
    } else if t.w.jobs[j].Active() && Orderly(s.hist, p.job.target) {
      WorkOwnFacts(s, i, a);
      assert ProcOk(s.w.made, p);
      if p.job.kind == DeleteContainer && p.job.target !in s.hist.stale { DeleteKeepsStatus(s.w, p, a); }
    }
  }

  lemma WorkRequestSound(s: Sys, i: nat, a: Answer, j: JobId)
    requires CanWork(s, i, a) && Sound(s) && j in s.reqs
    ensures RequestSound(WorkOn(s, i, a), s.reqs[j])
  {
    var p, r := s.workers[i], s.reqs[j];
    assert WorkerOk(s.w.jobs, p) && RequestSound(s, r) && HoldsLocks(s, r) && ProcOk(s.w.made, p);
    assert r.job.id == j;
    assert !Held(s.workers, j);
    assert j != p.job.id && Meets(s.hist, r, s.w.jobs[p.job.id]);
    if r.job.target != p.job.target { OtherRequestSound(s, i, a, r); } else { WorkOnRows(s.w, p, a); }
  }

  lemma OtherRequestSound(s: Sys, i: nat, a: Answer, r: Request)
    requires CanWork(s, i, a) && RequestSound(s, r) && r.job.target != s.workers[i].job.target
    ensures RequestSound(WorkOn(s, i, a), r)
  {
    OthersStill(s, i, a, r.job.target);
    StillKnows(s.w, WorkOn(s, i, a).w, r.job.target);
  }

  lemma OtherContainerSound(s: Sys, i: nat, a: Answer, c: ContainerId)
    requires CanWork(s, i, a) && ContainerSound(s, c) && c != s.workers[i].job.target
    ensures ContainerSound(WorkOn(s, i, a), c)
  {
    var t := WorkOn(s, i, a);
    OthersStill(s, i, a, c);
    StillKnows(s.w, t.w, c);
    if LaunchedOn(s.workers, c) {
      var k :| 0 <= k < |s.workers| && Launched(s.workers[k]) && s.workers[k].job.target == c;
      assert t.workers[k] == s.workers[k];
    }
  }

  lemma WorkContainerSound(s: Sys, i: nat, a: Answer, c: ContainerId)
    requires CanWork(s, i, a) && Sound(s)
    ensures ContainerSound(WorkOn(s, i, a), c)
  {
    var p, t := s.workers[i], WorkOn(s, i, a);
    assert ContainerSound(s, c);
    if c != p.job.target {
      OtherContainerSound(s, i, a, c);
    } else if Orderly(s.hist, c) {
      WorkOwnFacts(s, i, a);
      WorkOnProc(s.w, p, a);
      assert Launched(t.workers[i]) ==> LaunchedOn(t.workers, c);
    }
  }

  lemma WorkWorkerSound(s: Sys, i: nat, a: Answer, k: nat)
    requires CanWork(s, i, a) && Sound(s) && k < |s.workers|
    ensures WorkerSound(WorkOn(s, i, a), WorkOn(s, i, a).workers[k])
  {
    var p, t := s.workers[i], WorkOn(s, i, a);
    assert WorkerSound(s, s.workers[k]);
    if t.workers[k].Busy? && Orderly(s.hist, t.workers[k].job.target) {
      WorkOnProc(s.w, p, a);
      if k == i {
        WorkOwnFacts(s, i, a);
      } else {
        if s.workers[k].job.target == p.job.target { OneWorker(s, i, k); }
        OthersStill(s, i, a, s.workers[k].job.target);
        assert ProcOk(s.w.made, s.workers[k]);
        StillLocal(s.w, t.w, s.hist.born, t.hist.born, s.workers[k]);
      }
    }
  }

  lemma WorkSound(s: Sys, i: nat, a: Answer)
    requires CanWork(s, i, a) && Sound(s)
    ensures Sound(WorkOn(s, i, a))
  {
    var t := WorkOn(s, i, a);
    assert WorkerOk(s.w.jobs, s.workers[i]);
    forall j | j in t.w.jobs ensures JobSound(t, t.w.jobs[j]) { WorkJobSound(s, i, a, j); }
    forall j | j in t.reqs ensures RequestSound(t, t.reqs[j]) { WorkRequestSound(s, i, a, j); }
    forall c ensures ContainerSound(t, c) { WorkContainerSound(s, i, a, c); }
    forall k | 0 <= k < |t.workers| ensures WorkerSound(t, t.workers[k]) { WorkWorkerSound(s, i, a, k); }
  }

  /** Steps that neither work on a job nor admit one: at most Docker containers stop, jobs and
      requests disappear, and what a crash cuts off is noted as drift. */
  ghost predicate Quieter(s: Sys, t: Sys) {
    && (forall c :: StillBut(s.w, t.w, c)) && Advance(s.w.jobs, t.w.jobs)
    && t.locking == s.locking && t.hist.born == s.hist.born && s.hist.rowIds <= t.hist.rowIds
    && t.hist.split == s.hist.split && t.hist.unchecked == s.hist.unchecked && t.hist.stale == s.hist.stale
    && s.hist.drift <= t.hist.drift
    && (forall i :: 0 <= i < |t.workers| ==> t.workers[i] in s.workers || t.workers[i].Idle? || t.workers[i].pc.Mark?)
    && (forall c :: LaunchedOn(s.workers, c) && c !in t.hist.drift ==> LaunchedOn(t.workers, c))
  }

  lemma QuieterFacts(s: Sys, t: Sys)
    requires Life(s) && Sound(s) && Quieter(s, t)
    ensures forall j :: j in t.w.jobs ==> JobSound(t, t.w.jobs[j])
    ensures forall i :: 0 <= i < |t.workers| ==> WorkerSound(t, t.workers[i])
  {
    forall j | j in t.w.jobs ensures JobSound(t, t.w.jobs[j]) {
      assert JobSound(s, s.w.jobs[j]);
      StillKnows(s.w, t.w, t.w.jobs[j].target);
    }
    forall i | 0 <= i < |t.workers| ensures WorkerSound(t, t.workers[i]) {
      var p := t.workers[i];
      if p.Busy? && !p.pc.Mark? && Orderly(s.hist, p.job.target) {
        var k :| 0 <= k < |s.workers| && s.workers[k] == p;
        assert WorkerSound(s, s.workers[k]) && ProcOk(s.w.made, s.workers[k]);
        StillLocal(s.w, t.w, s.hist.born, t.hist.born, p);
      }
    }
  }

  lemma QuieterContainers(s: Sys, t: Sys, c: ContainerId)
    requires Life(s) && Sound(s) && Quieter(s, t)
    ensures ContainerSound(t, c)
  {
    assert ContainerSound(s, c);
    StillKnows(s.w, t.w, c);
  }

  lemma QuieterSound(s: Sys, t: Sys)
    requires Life(s) && Sound(s) && Quieter(s, t)
    requires forall j :: j in t.reqs ==> RequestSound(t, t.reqs[j])
    ensures Sound(t)
  {
    QuieterFacts(s, t);
    forall c ensures ContainerSound(t, c) { QuieterContainers(s, t, c); }
  }

  lemma SameRequests(s: Sys, t: Sys)
    requires Sound(s) && Quieter(s, t)
    requires forall j :: j in t.reqs ==> j in s.reqs && t.reqs[j] == s.reqs[j]
    ensures forall j :: j in t.reqs ==> RequestSound(t, t.reqs[j])
  {
    forall j | j in t.reqs ensures RequestSound(t, t.reqs[j]) {
      assert RequestSound(s, s.reqs[j]);
      assert StillBut(s.w, t.w, t.reqs[j].job.target);
    }
  }

  lemma CallSound(s: Sys, r: Request, rowIds: set<ContainerId>)
    requires Keyed(s) && Life(s) && Sound(s) && s.hist.rowIds <= rowIds && r.job.id !in s.reqs
    requires r.stage.AwaitMutex? || (r.stage.NewRow? && r.job.target !in s.hist.rowIds)
    ensures Sound(Call(s, r, rowIds))
  {
    var t := Call(s, r, rowIds);
    assert Quieter(s, t);
    SameRequests(s, t.(reqs := s.reqs));
    forall j | j in t.reqs ensures RequestSound(t, t.reqs[j]) {
      if j != r.job.id { assert RequestSound(t.(reqs := s.reqs), s.reqs[j]); }
    }
    QuieterSound(s, t);
  }

  lemma FallSound(s: Sys)
    requires Life(s) && Sound(s)
    ensures Sound(Fall(s))
  {
    var t := Fall(s);
    forall c | LaunchedOn(s.workers, c) ensures c in t.hist.drift {
      var k :| 0 <= k < |s.workers| && Launched(s.workers[k]) && s.workers[k].job.target == c;
    }
    assert Quieter(s, t);
    SameRequests(s, t);
    QuieterSound(s, t);
  }

  lemma TakeSound(s: Sys, i: nat)
    requires Life(s) && Sound(s) && i < |s.workers| && s.workers[i].Idle? && |s.queue| > 0
    ensures Sound(TakeJob(s, i))
  {
    var t := TakeJob(s, i);
    forall c | LaunchedOn(s.workers, c) ensures LaunchedOn(t.workers, c) {
      var k :| 0 <= k < |s.workers| && Launched(s.workers[k]) && s.workers[k].job.target == c;
      assert t.workers[k] == s.workers[k];
    }
    assert Quieter(s, t);
    SameRequests(s, t);
    QuieterSound(s, t);
  }

  lemma PlainSound(s: Sys, t: Sys)
    requires Life(s) && Sound(s) && t.workers == s.workers && t.locking == s.locking
    requires forall c :: StillBut(s.w, t.w, c)
    requires Advance(s.w.jobs, t.w.jobs)
    requires t.hist.born == s.hist.born && s.hist.rowIds == t.hist.rowIds && s.hist.drift == t.hist.drift
    requires t.hist.split == s.hist.split && t.hist.unchecked == s.hist.unchecked && t.hist.stale == s.hist.stale
    requires forall j :: j in t.reqs ==> j in s.reqs && t.reqs[j] == s.reqs[j]
    ensures Sound(t)
  {
    assert Quieter(s, t);
    SameRequests(s, t);
    QuieterSound(s, t);
  }

  lemma GotoRequests(s: Sys, j: JobId, reply: Reply)
    requires Inv(s) && Life(s) && Sound(s) && s.phase == Up && j in s.reqs && CanServe(s, s.reqs[j], reply)
    requires s.reqs[j].stage.AwaitMutex? || s.reqs[j].stage.AwaitRow? || s.reqs[j].stage.CheckJobs?
    ensures var t := ServeNext(s, s.reqs[j], reply);
      (forall k :: k in t.reqs ==> RequestSound(t, t.reqs[k])) && (t.locking.rowLock ==> t.hist.stale == {})
  {
    var t := ServeNext(s, s.reqs[j], reply);
    assert s.reqs[j].job.id == j && RequestOk(s.reqs[j], s.hist.rowIds);
    forall k | k in t.reqs ensures RequestSound(t, t.reqs[k]) { assert RequestSound(s, s.reqs[k]); }
    assert RequestSound(s, s.reqs[j]);
  }

  lemma GotoSound(s: Sys, j: JobId, reply: Reply)
    requires Inv(s) && Life(s) && Sound(s) && s.phase == Up && j in s.reqs && CanServe(s, s.reqs[j], reply)
    requires s.reqs[j].stage.AwaitMutex? || s.reqs[j].stage.AwaitRow? || s.reqs[j].stage.CheckJobs?
    ensures Sound(ServeNext(s, s.reqs[j], reply))
  {
    var t := ServeNext(s, s.reqs[j], reply);
    GotoRequests(s, j, reply);
    forall k | k in t.w.jobs ensures JobSound(t, t.w.jobs[k]) { assert JobSound(s, s.w.jobs[k]); }
    forall c ensures ContainerSound(t, c) { assert ContainerSound(s, c); }
    forall i | 0 <= i < |t.workers| ensures WorkerSound(t, t.workers[i]) { assert WorkerSound(s, s.workers[i]); }
  }

  lemma PublishSound(s: Sys, r: Request)
    requires Keyed(s) && Life(s) && Sound(s) && r.job.id in s.reqs && s.reqs[r.job.id] == r && (r.stage.Insert? || r.stage.NewJob?)
    ensures Sound(Publish(s, r))
  {
    var t := Publish(s, r);
    assert RequestSound(s, r) && RequestOk(r, s.hist.rowIds);
    forall k | k in t.w.jobs ensures JobSound(t, t.w.jobs[k]) {
      if k != r.job.id { assert JobSound(s, s.w.jobs[k]); }
    }
    forall k | k in t.reqs ensures RequestSound(t, t.reqs[k]) { assert RequestSound(s, s.reqs[k]); }
    forall c ensures ContainerSound(t, c) { assert ContainerSound(s, c); }
    forall i | 0 <= i < |t.workers| ensures WorkerSound(t, t.workers[i]) { assert WorkerSound(s, s.workers[i]); }
  }

  lemma FoundStill(s: Sys, r: Request, c: ContainerId)
    requires r.stage.NewRow? && RequestOk(r, s.hist.rowIds) && c != r.job.target
    ensures StillBut(s.w, Found(s, r, r.stage.row).w, c)
  {
  }

  /** Nobody else knows the container yet. */
  lemma FoundAlone(s: Sys, r: Request)
    requires Inv(s) && r.job.id in s.reqs && s.reqs[r.job.id] == r && r.stage.NewRow?
    ensures forall k :: k in s.w.jobs ==> s.w.jobs[k].target != r.job.target
    ensures forall k :: k in s.reqs && k != r.job.id && (Guarding(s.reqs[k]) || Founds(s.reqs[k])) ==> s.reqs[k].job.target != r.job.target
    ensures forall i :: 0 <= i < |s.workers| && s.workers[i].Busy? ==> s.workers[i].job.target != r.job.target
  {
    forall k | k in s.w.jobs ensures s.w.jobs[k].target != r.job.target {
      assert k != r.job.id && Meets(s.hist, r, s.w.jobs[k]);
    }
    forall k | k in s.reqs && k != r.job.id && (Guarding(s.reqs[k]) || Founds(s.reqs[k]))
      ensures s.reqs[k].job.target != r.job.target
    {
      assert Rivals(s.hist, r, s.reqs[k]) && RequestOk(s.reqs[k], s.hist.rowIds) && RequestOk(r, s.hist.rowIds);
    }
    forall i | 0 <= i < |s.workers| && s.workers[i].Busy? ensures s.workers[i].job.target != r.job.target {
      assert WorkerOk(s.w.jobs, s.workers[i]);
    }
  }

  lemma FoundFacts(s: Sys, r: Request)
    requires Inv(s) && Life(s) && Sound(s) && r.job.id in s.reqs && s.reqs[r.job.id] == r && r.stage.NewRow?
    ensures var t := Found(s, r, r.stage.row);
      && (forall k :: k in t.reqs ==> RequestSound(t, t.reqs[k]))
      && (forall k :: k in t.w.jobs ==> JobSound(t, t.w.jobs[k]))
  {
    var t := Found(s, r, r.stage.row);
    FoundAlone(s, r);
    assert RequestSound(s, r) && RequestOk(r, s.hist.rowIds);
    forall k | k in t.reqs ensures RequestSound(t, t.reqs[k]) {
      if k != r.job.id {
        assert RequestSound(s, s.reqs[k]);
      }
    }
    forall k | k in t.w.jobs ensures JobSound(t, t.w.jobs[k]) {
      assert JobSound(s, s.w.jobs[k]);
      FoundStill(s, r, s.w.jobs[k].target);
      StillKnows(s.w, t.w, s.w.jobs[k].target);
    }
  }

  lemma FoundSound(s: Sys, r: Request)
    requires Inv(s) && Life(s) && Sound(s) && r.job.id in s.reqs && s.reqs[r.job.id] == r && r.stage.NewRow?
    ensures Sound(Found(s, r, r.stage.row))
  {
    var t := Found(s, r, r.stage.row);
    FoundFacts(s, r);
    FoundAlone(s, r);
    assert RequestSound(s, r) && RequestOk(r, s.hist.rowIds);
    forall c ensures ContainerSound(t, c) {
      assert ContainerSound(s, c);
      if c != r.job.target {
        FoundStill(s, r, c);
        StillKnows(s.w, t.w, c);
      }
    }
    forall i | 0 <= i < |t.workers| ensures WorkerSound(t, t.workers[i]) {
      var p := s.workers[i];
      assert WorkerSound(s, p);
      if p.Busy? && Orderly(s.hist, p.job.target) {
        FoundStill(s, r, p.job.target);
        assert ProcOk(s.w.made, p);
        StillLocal(s.w, t.w, s.hist.born, t.hist.born, p);
      }
    }
  }

  lemma SaveJobSound(s: Sys, r: Request, reply: Reply)
    requires Keyed(s) && Life(s) && Sound(s) && r.job.id in s.reqs && s.reqs[r.job.id] == r && (r.stage.Insert? || r.stage.NewJob?)
    ensures Sound(SaveJob(s, r, reply))
  {
    PublishSound(s, r);
    OtherLife(s, Publish(s, r));
    PlainSound(if reply.Refused? then s else Publish(s, r), SaveJob(s, r, reply));
  }

  lemma SaveRowSound(s: Sys, r: Request, reply: Reply)
    requires Inv(s) && Life(s) && Sound(s) && r.job.id in s.reqs && s.reqs[r.job.id] == r && r.stage.NewRow?
    ensures Sound(SaveRow(s, r, r.stage.row, reply))
  {
    FoundSound(s, r);
    assert RequestOk(r, s.hist.rowIds);
    OtherLife(s, Found(s, r, r.stage.row));
    PlainSound(if reply.Refused? then s else Found(s, r, r.stage.row), SaveRow(s, r, r.stage.row, reply));
  }

  lemma SendSound(s: Sys, r: Request, reply: Reply)
    requires Life(s) && Sound(s) && r.stage.Send?
    ensures Sound(ServeNext(s, r, reply))
  {
    PlainSound(s, ServeNext(s, r, reply));
  }

  lemma ServeSound(s: Sys, j: JobId, reply: Reply)
    requires Inv(s) && Life(s) && Sound(s) && s.phase == Up && j in s.reqs && CanServe(s, s.reqs[j], reply)
    ensures Sound(ServeNext(s, s.reqs[j], reply))
  {
    assert s.reqs[j].job.id == j;
    match s.reqs[j].stage
    case Insert(_) => SaveJobSound(s, s.reqs[j], reply);
    case NewJob => SaveJobSound(s, s.reqs[j], reply);
    case NewRow(_) => SaveRowSound(s, s.reqs[j], reply);
    case Send => SendSound(s, s.reqs[j], reply);
    case _ => GotoSound(s, j, reply);
  }

  lemma EnvironmentSound(s: Sys, st: Step)
    requires Life(s) && Sound(s) && Enabled(s, st)
    requires st.Quit? || st.Halts? || st.Tick? || st.Clean? || st.Requeue?
    ensures Sound(Apply(s, st))
  {
    PlainSound(s, Apply(s, st));
  }

  lemma SweepUpSound(s: Sys, reply: Reply)
    requires Life(s) && Sound(s)
    ensures Sound(SweepUp(s, reply))
  {
    FailedAdvance(s.w.jobs);
    PlainSound(s, SweepUp(s, reply));
  }

  lemma StepSound(s: Sys, st: Step)
    requires Inv(s) && Life(s) && Sound(s) && Enabled(s, st)
    ensures Sound(Apply(s, st))
  {
    match st
    case CallGuarded(job) => CallSound(s, Request(job, AwaitMutex), s.hist.rowIds);
    case CallCreate(job, row) => CallSound(s, Request(job, NewRow(row)), s.hist.rowIds + {row.id});
    case Serve(j, reply) => ServeSound(s, j, reply);
    case Take(i) => TakeSound(s, i);
    case Answered(i, a) => WorkSound(s, i, a);
    case Crash => FallSound(s);
    case Recover(reply) => SweepUpSound(s, reply);
    case _ => EnvironmentSound(s, st);
  }
}
