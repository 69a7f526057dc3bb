/** Containers do not interfere: what a run looks like to some of the containers is itself a run, in
    which the others never existed. */
module Projection {
  import opened Domain
  import opened Store
  import opened WorkerSteps
  import opened Protocol
  import opened Invariant
  import opened Lifecycle
  import opened Accounting
  import opened ContainerTheorems
  import opened Slices

  // ---------- the part of a state that concerns some containers ----------

  function OnlyWorld(w: World, keep: set<ContainerId>): World {
    World(map c | c in w.rows && c in keep :: w.rows[c],
          map j | j in w.jobs && w.jobs[j].target in keep :: w.jobs[j],
          map d | d in w.docker && d.name in keep :: w.docker[d],
          set d | d in w.made && d.name in keep)
  }

  function OnlyQueue(queue: seq<Job>, keep: set<ContainerId>): seq<Job> {
    if queue == [] then []
    else (if queue[0].target in keep then [queue[0]] else []) + OnlyQueue(queue[1..], keep)
  }

  function OnlyProc(p: Proc, keep: set<ContainerId>): Proc { if p.Busy? && p.job.target in keep then p else Idle }

  function OnlyWorkers(workers: seq<Proc>, keep: set<ContainerId>): seq<Proc> {
    seq(|workers|, i requires 0 <= i < |workers| => OnlyProc(workers[i], keep))
  }

  function OnlyReqs(reqs: map<JobId, Request>, keep: set<ContainerId>): map<JobId, Request> {
    map j | j in reqs && reqs[j].job.target in keep :: reqs[j]
  }

  function OnlyLocks(m: map<ContainerId, JobId>, keep: set<ContainerId>): map<ContainerId, JobId> {
    map c | c in m && c in keep :: m[c]
  }

  predicate OnlyPast(h: History, g: History, keep: set<ContainerId>) {
    && g.jobIds <= h.jobIds && g.rowIds <= h.rowIds
    && g.split == h.split * keep && g.unchecked == h.unchecked * keep && g.stale == h.stale * keep
    && g.drift == h.drift * keep && g.blurred == h.blurred * keep && g.born == h.born * keep
    && g.orphans == h.orphans * keep
  }

  /** g is what s looks like when only these containers exist. */
  predicate Shows(s: Sys, g: Sys, keep: set<ContainerId>) {
    && g.locking == s.locking && g.phase == s.phase && g.clock == s.clock
    && g.w == OnlyWorld(s.w, keep) && g.queue == OnlyQueue(s.queue, keep) && g.workers == OnlyWorkers(s.workers, keep)
    && g.reqs == OnlyReqs(s.reqs, keep) && g.mutex == OnlyLocks(s.mutex, keep) && g.locks == OnlyLocks(s.locks, keep)
    && OnlyPast(s.hist, g.hist, keep)
  }

  // ---------- queues ----------

  lemma {:induction false} OnlyQueueMore(q: seq<Job>, more: seq<Job>, keep: set<ContainerId>)
    ensures OnlyQueue(q + more, keep) == OnlyQueue(q, keep) + OnlyQueue(more, keep)
    decreases |q|
  {
    if q == [] {
      assert q + more == more;
    } else {
      var first := if q[0].target in keep then [q[0]] else [];
      assert (q + more)[1..] == q[1..] + more && (q + more)[0] == q[0];
      OnlyQueueMore(q[1..], more, keep);
      assert first + (OnlyQueue(q[1..], keep) + OnlyQueue(more, keep)) == first + OnlyQueue(q[1..], keep) + OnlyQueue(more, keep);
    }
  }

  lemma {:induction false} OnlyQueueShorter(q: seq<Job>, keep: set<ContainerId>)
    ensures |OnlyQueue(q, keep)| <= |q|
    ensures forall k :: 0 <= k < |OnlyQueue(q, keep)| ==> OnlyQueue(q, keep)[k] in q && OnlyQueue(q, keep)[k].target in keep
    ensures forall job :: job in q && job.target in keep ==> job in OnlyQueue(q, keep)
    decreases |q|
  {
    if q != [] {
      OnlyQueueShorter(q[1..], keep);
      assert q == [q[0]] + q[1..];
    }
  }

  lemma {:induction false} OnlyQueueSorted(q: seq<Job>, keep: set<ContainerId>)
    requires DistinctIds(q) && Dated(q)
    ensures DistinctIds(OnlyQueue(q, keep)) && Dated(OnlyQueue(q, keep))
    decreases |q|
  {
    if q != [] {
      var rest := OnlyQueue(q[1..], keep);
      assert forall a :: 0 <= a < |q[1..]| ==> q[1..][a] == q[a + 1];
      OnlyQueueSorted(q[1..], keep);
      OnlyQueueShorter(q[1..], keep);
      forall k | 0 <= k < |rest| ensures q[0].id != rest[k].id && q[0].createdAt <= rest[k].createdAt {
        var i :| 0 <= i < |q[1..]| && q[1..][i] == rest[k];
        assert q[i + 1] == rest[k];
      }
      SortedMore(q[0], rest);
    }
  }

  lemma SortedMore(job: Job, js: seq<Job>)
    requires DistinctIds(js) && Dated(js)
    requires forall k :: 0 <= k < |js| ==> job.id != js[k].id && job.createdAt <= js[k].createdAt
    ensures DistinctIds([job] + js) && Dated([job] + js)
  {
  }

  predicate Dated(js: seq<Job>) { forall a, b :: 0 <= a < b < |js| ==> js[a].createdAt <= js[b].createdAt }

  lemma OnlyListing(jobs: map<JobId, Job>, listing: seq<Job>, keep: set<ContainerId>)
    requires IsListing(jobs, listing)
    ensures IsListing(map j | j in jobs && jobs[j].target in keep :: jobs[j], OnlyQueue(listing, keep))
  {
    OnlyQueueSorted(listing, keep);
    OnlyQueueShorter(listing, keep);
  }

  // ---------- requests ----------

  lemma WithoutOnly(m: map<ContainerId, JobId>, c: ContainerId, j: JobId, keep: set<ContainerId>)
    ensures OnlyLocks(Without(m, c, j), keep) == if c in keep then Without(OnlyLocks(m, keep), c, j) else OnlyLocks(m, keep)
  {
  }

  lemma LeaveShows(s: Sys, g: Sys, r: Request, keep: set<ContainerId>)
    requires Shows(s, g, keep) && r.job.id in s.reqs && s.reqs[r.job.id].job.target == r.job.target
    ensures Shows(Leave(s, r), if r.job.target in keep then Leave(g, r) else g, keep)
  {
    WithoutOnly(s.mutex, r.job.target, r.job.id, keep);
    WithoutOnly(s.locks, r.job.target, r.job.id, keep);
  }

  lemma PublishShows(s: Sys, g: Sys, r: Request, keep: set<ContainerId>)
    requires Shows(s, g, keep) && r.job.id in s.reqs && s.reqs[r.job.id] == r && r.job.id !in s.w.jobs
    ensures Shows(Publish(s, r), if r.job.target in keep then Publish(g, r) else g, keep)
  {
    WithoutOnly(s.locks, r.job.target, r.job.id, keep);
  }

  lemma FoundShows(s: Sys, g: Sys, r: Request, row: Container, keep: set<ContainerId>)
    requires Shows(s, g, keep) && r.job.id in s.reqs && s.reqs[r.job.id] == r && row.id == r.job.target
    ensures Shows(Found(s, r, row), if r.job.target in keep then Found(g, r, row) else g, keep)
  {
  }

  lemma StrandShows(s: Sys, g: Sys, j: JobId, keep: set<ContainerId>)
    requires Shows(s, g, keep)
    ensures Shows(Strand(s, j), Strand(g, j), keep) && Shows(Strand(s, j), g, keep)
  {
  }

  lemma SaveJobShows(s: Sys, g: Sys, r: Request, reply: Reply, keep: set<ContainerId>)
    requires Shows(s, g, keep) && r.job.id in s.reqs && s.reqs[r.job.id] == r && r.job.id !in s.w.jobs
    ensures Shows(SaveJob(s, r, reply), if r.job.target in keep then SaveJob(g, r, reply) else g, keep)
  {
    var kept := r.job.target in keep;
    LeaveShows(s, g, r, keep);
    PublishShows(s, g, r, keep);
    var t, u := Publish(s, r), if kept then Publish(g, r) else g;
    LeaveShows(t, u, r, keep);
    StrandShows(Leave(t, r), if kept then Leave(u, r) else u, r.job.id, keep);
  }

  lemma SaveRowShows(s: Sys, g: Sys, r: Request, row: Container, reply: Reply, keep: set<ContainerId>)
    requires Shows(s, g, keep) && r.job.id in s.reqs && s.reqs[r.job.id] == r && row.id == r.job.target
    ensures Shows(SaveRow(s, r, row, reply), if r.job.target in keep then SaveRow(g, r, row, reply) else g, keep)
  {
    LeaveShows(s, g, r, keep);
    FoundShows(s, g, r, row, keep);
    LeaveShows(Found(s, r, row), if r.job.target in keep then Found(g, r, row) else g, r, keep);
  }

  lemma EnqueueShows(s: Sys, g: Sys, job: Job, keep: set<ContainerId>)
    requires Shows(s, g, keep)
    ensures Shows(Enqueue(s, job), if job.target in keep then Enqueue(g, job) else g, keep)
  {
    OnlyQueueMore(s.queue, [job], keep);
    assert OnlyQueue([job], keep) == if job.target in keep then [job] else [];
  }

  /** A hand-over that fails for want of room may find room among the kept jobs; then it fails otherwise. */
  function SameReply(s: Sys, r: Request, reply: Reply): Reply {
    if r.stage.Send? && |s.queue| >= CHANNEL_CAPACITY then Refused else reply
  }

  lemma SendShows(s: Sys, g: Sys, r: Request, reply: Reply, keep: set<ContainerId>)
    requires Shows(s, g, keep) && r.job.id in s.reqs && s.reqs[r.job.id] == r && r.stage.Send?
    ensures Shows(ServeNext(s, r, reply), if r.job.target in keep then ServeNext(g, r, SameReply(s, r, reply)) else g, keep)
  {
    var u := if r.job.target in keep then Leave(g, r) else g;
    LeaveShows(s, g, r, keep);
    OnlyQueueShorter(s.queue, keep);
    if reply.Done? && |s.queue| < CHANNEL_CAPACITY {
      EnqueueShows(Leave(s, r), u, r.job, keep);
    } else {
      StrandShows(Leave(s, r), u, r.job.id, keep);
    }
  }

  lemma MutexShows(s: Sys, g: Sys, r: Request, reply: Reply, keep: set<ContainerId>)
    requires Shows(s, g, keep) && r.job.id in s.reqs && s.reqs[r.job.id] == r && r.stage.AwaitMutex?
    ensures Shows(ServeNext(s, r, reply), if r.job.target in keep then ServeNext(g, r, reply) else g, keep)
  {
  }

  lemma RowReadShows(s: Sys, g: Sys, r: Request, reply: Reply, keep: set<ContainerId>)
    requires Shows(s, g, keep) && r.job.id in s.reqs && s.reqs[r.job.id] == r && r.stage.AwaitRow?
    ensures Shows(ServeNext(s, r, reply), if r.job.target in keep then ServeNext(g, r, reply) else g, keep)
  {
    if r.job.target in s.w.rows {
      RowSeenShows(s, g, r, CheckJobs(s.w.rows[r.job.target]), keep);
    } else {
      LeaveShows(s, g, r, keep);
    }
  }

  function RowSeen(s: Sys, r: Request, stage: Stage): Sys {
    Goto(s, r, stage).(locks := if s.locking.rowLock then s.locks[r.job.target := r.job.id] else s.locks)
  }

  lemma RowSeenShows(s: Sys, g: Sys, r: Request, stage: Stage, keep: set<ContainerId>)
    requires Shows(s, g, keep) && r.job.id in s.reqs && s.reqs[r.job.id] == r
    ensures Shows(RowSeen(s, r, stage), if r.job.target in keep then RowSeen(g, r, stage) else g, keep)
  {
  }

  lemma CheckShows(s: Sys, g: Sys, r: Request, reply: Reply, keep: set<ContainerId>)
    requires Shows(s, g, keep) && r.job.id in s.reqs && s.reqs[r.job.id] == r && r.stage.CheckJobs?
    ensures Shows(ServeNext(s, r, reply), if r.job.target in keep then ServeNext(g, r, reply) else g, keep)
  {
    if r.job.target in keep {
      assert BetweenWrites(s, r.job.target) <==> BetweenWrites(g, r.job.target) by {
        assert forall j :: j in s.reqs && s.reqs[j].job.target == r.job.target ==> j in g.reqs && g.reqs[j] == s.reqs[j];
      }
    }
  }

  lemma ServeShows(s: Sys, g: Sys, j: JobId, reply: Reply, keep: set<ContainerId>)
    requires Keyed(s) && Placed(s) && Shows(s, g, keep) && j in s.reqs
    ensures var r := s.reqs[j];
      Shows(ServeNext(s, r, reply), if r.job.target in keep then ServeNext(g, r, SameReply(s, r, reply)) else g, keep)
  {
    var r := s.reqs[j];
    assert r.job.id == j && RequestOk(r, s.hist.rowIds);
    match r.stage
    case Insert(_) => SaveJobShows(s, g, r, reply, keep);
    case NewJob => SaveJobShows(s, g, r, reply, keep);
    case NewRow(row) => SaveRowShows(s, g, r, row, reply, keep);
    case Send => SendShows(s, g, r, reply, keep);
    case CheckJobs(_) => CheckShows(s, g, r, reply, keep);
    case AwaitMutex => MutexShows(s, g, r, reply, keep);
    case AwaitRow => RowReadShows(s, g, r, reply, keep);
  }

  lemma ServableToo(s: Sys, g: Sys, r: Request, reply: Reply, keep: set<ContainerId>)
    requires Shows(s, g, keep) && r.job.target in keep && CanServe(s, r, reply)
    ensures CanServe(g, r, SameReply(s, r, reply))
  {
  }

  lemma CallShows(s: Sys, g: Sys, r: Request, rowIds: set<ContainerId>, keep: set<ContainerId>)
    requires Shows(s, g, keep) && r.job.id !in s.reqs && s.hist.rowIds <= rowIds
    ensures Shows(Call(s, r, rowIds), g, keep) || r.job.target in keep
    ensures r.job.target in keep ==> forall ids :: ids <= rowIds ==> Shows(Call(s, r, rowIds), Call(g, r, ids), keep)
  {
  }

  // ---------- workers ----------

  lemma OnlyAgrees(w: World, keep: set<ContainerId>, c: ContainerId, j: JobId)
    requires c in keep && (j in w.jobs ==> w.jobs[j].target in keep)
    ensures SameSlice(OnlyWorld(w, keep), w, c, j)
  {
  }

  lemma KeptContainer(w: World, w': World, keep: set<ContainerId>, c: ContainerId)
    requires c in keep ==> SameContainer(w, w', c)
    ensures SameContainer(OnlyWorld(w, keep), OnlyWorld(w', keep), c)
  {
  }

  /** A job of a container that is not kept changes nothing that is. */
  lemma HiddenWork(w: World, w': World, c: ContainerId, j: JobId, keep: set<ContainerId>)
    requires OnlyTouches(w, w', c, j) && c !in keep
    requires j in w.jobs ==> w.jobs[j].target == c
    requires j in w'.jobs ==> w'.jobs[j].target == c
    ensures OnlyWorld(w', keep) == OnlyWorld(w, keep)
  {
    var v, v' := OnlyWorld(w, keep), OnlyWorld(w', keep);
    forall e ensures SameContainer(v, v', e) { KeptContainer(w, w', keep, e); }
    forall k ensures JobOf(v, k) == JobOf(v', k) { if k != j { assert JobOf(w, k) == JobOf(w', k); } }
    SameWorlds(v, v');
  }

  /** A job of a kept container does in the part what it does in the whole. */
  lemma KeptWork(w: World, w': World, v': World, c: ContainerId, j: JobId, keep: set<ContainerId>)
    requires c in keep && OnlyTouches(w, w', c, j) && OnlyTouches(OnlyWorld(w, keep), v', c, j) && SameSlice(v', w', c, j)
    requires j in w'.jobs ==> w'.jobs[j].target == c
    ensures v' == OnlyWorld(w', keep)
  {
    var v, u := OnlyWorld(w, keep), OnlyWorld(w', keep);
    forall e ensures SameContainer(v', u, e) {
      if e != c {
        assert SameContainer(w, w', e) && SameContainer(v, v', e);
        KeptContainer(w, w', keep, e);
        assert SameContainer(v, u, e);
      } else {
        OnlyAgrees(w', keep, c, j);
      }
    }
    forall k ensures JobOf(v', k) == JobOf(u, k) {
      if k != j { assert JobOf(w, k) == JobOf(w', k) && JobOf(v, k) == JobOf(v', k); } else { OnlyAgrees(w', keep, c, j); }
    }
    SameWorlds(v', u);
  }

  lemma WorkShows(s: Sys, i: nat, a: Answer, keep: set<ContainerId>)
    requires CanWork(s, i, a)
    ensures var p, w' := s.workers[i], WorkOn(s, i, a).w;
      if p.job.target in keep then
        && Allowed(OnlyWorld(s.w, keep), p.pc, a)
        && Work(OnlyWorld(s.w, keep), p, a) == Outcome(OnlyWorld(w', keep), WorkOn(s, i, a).workers[i])
      else OnlyWorld(w', keep) == OnlyWorld(s.w, keep)
  {
    var p, w' := s.workers[i], WorkOn(s, i, a).w;
    var v, c, j := OnlyWorld(s.w, keep), p.job.target, p.job.id;
    assert ProcOk(s.w.made, p) && WorkerOk(s.w.jobs, p);
    WorkOnJobs(s.w, p, a);
    WorkLocal(s.w, s.w, p, a);
    if c in keep {
      OnlyAgrees(s.w, keep, c, j);
      AllowedLocal(v, s.w, p, a);
      WorkLocal(v, s.w, p, a);
      KeptWork(s.w, w', Work(v, p, a).world, c, j, keep);
    } else {
      HiddenWork(s.w, w', c, j, keep);
    }
  }

  lemma RecordShows(h: History, g: History, w: World, p: Proc, a: Answer, p': Proc, keep: set<ContainerId>)
    requires OnlyPast(h, g, keep) && p.Busy? && ProcOk(w.made, p)
    ensures if p.job.target in keep then OnlyPast(Record(h, w, p, a, p'), Record(g, OnlyWorld(w, keep), p, a, p'), keep)
            else OnlyPast(Record(h, w, p, a, p'), g, keep)
  {
    if p.pc.WriteRow? { WriteShows(h, g, w, p, a, p', keep); }
  }

  lemma WriteShows(h: History, g: History, w: World, p: Proc, a: Answer, p': Proc, keep: set<ContainerId>)
    requires OnlyPast(h, g, keep) && p.Busy? && ProcOk(w.made, p) && p.pc.WriteRow?
    ensures if p.job.target in keep then OnlyPast(Record(h, w, p, a, p'), Record(g, OnlyWorld(w, keep), p, a, p'), keep)
            else OnlyPast(Record(h, w, p, a, p'), g, keep)
  {
    OrphanShows(w, p, keep);
  }

  lemma AnsweredShows(s: Sys, g: Sys, i: nat, a: Answer, keep: set<ContainerId>)
    requires CanWork(s, i, a) && Shows(s, g, keep)
    ensures if s.workers[i].job.target in keep then
              && i < |g.workers| && g.workers[i] == s.workers[i] && !Blocked(g, g.workers[i]) && Allowed(g.w, g.workers[i].pc, a)
              && Shows(WorkOn(s, i, a), WorkOn(g, i, a), keep)
            else Shows(WorkOn(s, i, a), g, keep)
  {
    var p, t := s.workers[i], WorkOn(s, i, a);
    assert ProcOk(s.w.made, p);
    WorkShows(s, i, a, keep);
    RecordShows(s.hist, g.hist, s.w, p, a, t.workers[i], keep);
    WorkOnProc(s.w, p, a);
    OnlyWorkersUpdate(s.workers, i, t.workers[i], keep);
  }

  lemma OnlyWorkersUpdate(workers: seq<Proc>, i: nat, p: Proc, keep: set<ContainerId>)
    requires i < |workers|
    ensures OnlyWorkers(workers[i := p], keep) == OnlyWorkers(workers, keep)[i := OnlyProc(p, keep)]
    ensures OnlyProc(p, keep) == OnlyProc(workers[i], keep) ==> OnlyWorkers(workers[i := p], keep) == OnlyWorkers(workers, keep)
  {
  }

  lemma TakeShows(s: Sys, g: Sys, i: nat, keep: set<ContainerId>)
    requires Shows(s, g, keep) && i < |s.workers| && s.workers[i].Idle? && |s.queue| > 0
    ensures if s.queue[0].target in keep then
              && i < |g.workers| && g.workers[i].Idle? && |g.queue| > 0 && g.queue[0] == s.queue[0]
              && Shows(TakeJob(s, i), TakeJob(g, i), keep)
            else Shows(TakeJob(s, i), g, keep)
  {
    var job := s.queue[0];
    OnlyWorkersUpdate(s.workers, i, Busy(job, Mark, RowOf(s.w, job.target)), keep);
    if job.target in keep {
      assert g.queue == [job] + OnlyQueue(s.queue[1..], keep);
      assert g.queue[1..] == OnlyQueue(s.queue[1..], keep);
    }
  }

  // ---------- the environment, crash and start-up ----------

  lemma HaltShows(s: Sys, g: Sys, d: DockerId, keep: set<ContainerId>)
    requires Shows(s, g, keep) && d in s.w.docker
    ensures if d.name in keep then d in g.w.docker && Shows(s.(w := Halt(s.w, d)), g.(w := Halt(g.w, d)), keep)
            else Shows(s.(w := Halt(s.w, d)), g, keep)
  {
  }

  lemma CleanShows(s: Sys, g: Sys, keep: set<ContainerId>)
    requires Shows(s, g, keep)
    ensures Shows(s.(w := s.w.(jobs := DeleteExpired(s.w.jobs, s.clock))), g.(w := g.w.(jobs := DeleteExpired(g.w.jobs, g.clock))), keep)
  {
  }

  lemma OrphanShows(w: World, p: Proc, keep: set<ContainerId>)
    requires ProcOk(w.made, p)
    ensures LeavesOrphan(OnlyWorld(w, keep), OnlyProc(p, keep)) <==> LeavesOrphan(w, p) && p.job.target in keep
  {
  }

  lemma CreatesShow(s: Sys, g: Sys, keep: set<ContainerId>, c: ContainerId)
    requires Life(s) && Shows(s, g, keep)
    ensures c in CrashedCreates(g) <==> c in CrashedCreates(s) && c in keep
  {
    if c in CrashedCreates(s) && c in keep {
      var i :| 0 <= i < |s.workers| && LeavesOrphan(s.w, s.workers[i]) && s.workers[i].job.target == c;
      assert g.workers[i] == s.workers[i] && ProcOk(s.w.made, s.workers[i]);
      OrphanShows(s.w, s.workers[i], keep);
    }
    if c in CrashedCreates(g) {
      var i :| 0 <= i < |g.workers| && LeavesOrphan(g.w, g.workers[i]) && g.workers[i].job.target == c;
      assert g.workers[i] == s.workers[i] && ProcOk(s.w.made, s.workers[i]);
      OrphanShows(s.w, s.workers[i], keep);
    }
  }

  lemma FallShows(s: Sys, g: Sys, keep: set<ContainerId>)
    requires Life(s) && Shows(s, g, keep)
    ensures Shows(Fall(s), Fall(g), keep)
  {
    forall c ensures c in CrashedCreates(g) <==> c in CrashedCreates(s) && c in keep { CreatesShow(s, g, keep, c); }
    forall c ensures c in CrashedStarts(g) <==> c in CrashedStarts(s) && c in keep {
      if c in CrashedStarts(s) && c in keep {
        var i :| 0 <= i < |s.workers| && Launched(s.workers[i]) && s.workers[i].job.target == c;
        assert g.workers[i] == s.workers[i];
      }
      if c in CrashedStarts(g) {
        var i :| 0 <= i < |g.workers| && Launched(g.workers[i]) && g.workers[i].job.target == c;
        assert g.workers[i] == s.workers[i];
      }
    }
    assert Fall(g).workers == OnlyWorkers(Fall(s).workers, keep);
  }

  lemma SweepShows(s: Sys, g: Sys, reply: Reply, keep: set<ContainerId>)
    requires Shows(s, g, keep)
    ensures Shows(SweepUp(s, reply), SweepUp(g, reply), keep)
  {
  }

  lemma BootShows(s: Sys, g: Sys, listing: seq<Job>, read: nat, keep: set<ContainerId>)
    requires Shows(s, g, keep) && IsListing(s.w.jobs, listing) && read <= |listing|
    ensures var part, fits := OnlyQueue(listing, keep), OnlyQueue(Fitting(listing[..read]), keep);
      && IsListing(g.w.jobs, part) && |fits| <= |part|
      && Shows(Boot(s, Fitting(listing[..read])), Boot(g, Fitting(part[..|fits|])), keep)
  {
    var q := Fitting(listing[..read]);
    var part, fits := OnlyQueue(listing, keep), OnlyQueue(q, keep);
    OnlyListing(s.w.jobs, listing, keep);
    OnlyQueueShorter(q, keep);
    assert listing == q + listing[|q|..];
    OnlyQueueMore(q, listing[|q|..], keep);
    assert part[..|fits|] == fits && Fitting(fits) == fits;
  }

  // ---------- steps ----------

  /** The step of the part that goes with a step of the whole, if it concerns the part. */
  function Mirror(s: Sys, st: Step, keep: set<ContainerId>): (m: seq<Step>)
    requires Enabled(s, st)
    ensures |m| <= 1
  {
    match st
    case CallGuarded(job) => if job.target in keep then [st] else []
    case CallCreate(job, _) => if job.target in keep then [st] else []
    case Serve(j, reply) => if s.reqs[j].job.target in keep then [Serve(j, SameReply(s, s.reqs[j], reply))] else []
    case Quit(j) => if s.reqs[j].job.target in keep then [st] else []
    case Take(_) => if s.queue[0].target in keep then [st] else []
    case Answered(i, _) => if s.workers[i].job.target in keep then [st] else []
    case Halts(d) => if d.name in keep then [st] else []
    case Requeue(listing, read) => [Requeue(OnlyQueue(listing, keep), |OnlyQueue(Fitting(listing[..read]), keep)|)]
    case _ => [st]
  }

  predicate Mirrored(s: Sys, g: Sys, st: Step, keep: set<ContainerId>)
    requires Enabled(s, st)
  {
    var m := Mirror(s, st, keep);
    if m == [] then Shows(Apply(s, st), g, keep) else Enabled(g, m[0]) && Shows(Apply(s, st), Apply(g, m[0]), keep)
  }

  lemma ServeMirrored(s: Sys, g: Sys, j: JobId, reply: Reply, keep: set<ContainerId>)
    requires Keyed(s) && Placed(s) && Shows(s, g, keep) && Enabled(s, Serve(j, reply))
    ensures Mirrored(s, g, Serve(j, reply), keep)
  {
    ServeShows(s, g, j, reply, keep);
    if s.reqs[j].job.target in keep { ServableToo(s, g, s.reqs[j], reply, keep); }
  }

  lemma QuitMirrored(s: Sys, g: Sys, j: JobId, keep: set<ContainerId>)
    requires Keyed(s) && Shows(s, g, keep) && Enabled(s, Quit(j))
    ensures Mirrored(s, g, Quit(j), keep)
  {
    LeaveShows(s, g, s.reqs[j], keep);
  }

  lemma CallMirrored(s: Sys, g: Sys, st: Step, keep: set<ContainerId>)
    requires Good(s) && Shows(s, g, keep) && Enabled(s, st) && (st.CallGuarded? || st.CallCreate?)
    ensures Mirrored(s, g, st, keep)
  {
    match st
    case CallGuarded(job) => CallShows(s, g, Request(job, AwaitMutex), s.hist.rowIds, keep);
    case CallCreate(job, row) => CallShows(s, g, Request(job, NewRow(row)), s.hist.rowIds + {row.id}, keep);
  }

  lemma PoolMirrored(s: Sys, g: Sys, st: Step, keep: set<ContainerId>)
    requires Good(s) && Shows(s, g, keep) && Enabled(s, st) && (st.Take? || st.Answered?)
    ensures Mirrored(s, g, st, keep)
  {
    match st
    case Take(i) => TakeShows(s, g, i, keep);
    case Answered(i, a) => AnsweredShows(s, g, i, a, keep);
  }

  lemma OutsideMirrored(s: Sys, g: Sys, st: Step, keep: set<ContainerId>)
    requires Shows(s, g, keep) && Enabled(s, st)
    requires st.Halts? || st.Tick? || st.Clean?
    ensures Mirrored(s, g, st, keep)
  {
    match st
    case Halts(d) => HaltShows(s, g, d, keep);
    case Tick =>
    case Clean(_) => CleanShows(s, g, keep);
  }

  lemma RestartMirrored(s: Sys, g: Sys, st: Step, keep: set<ContainerId>)
    requires Life(s) && Shows(s, g, keep) && Enabled(s, st)
    requires st.Crash? || st.Recover? || st.Requeue?
    ensures Mirrored(s, g, st, keep)
  {
    match st
    case Crash => FallShows(s, g, keep);
    case Recover(reply) => SweepShows(s, g, reply, keep);
    case Requeue(listing, read) => BootShows(s, g, listing, read, keep);
  }

  /** What the whole does is, for the part, either one of its own steps or nothing at all. */
  lemma StepMirrored(s: Sys, g: Sys, st: Step, keep: set<ContainerId>)
    requires Good(s) && Shows(s, g, keep) && Enabled(s, st)
    ensures Mirrored(s, g, st, keep)
  {
    if st.Serve? { ServeMirrored(s, g, st.id, st.reply, keep); }
    else if st.Quit? { QuitMirrored(s, g, st.id, keep); }
    else if st.CallGuarded? || st.CallCreate? { CallMirrored(s, g, st, keep); }
    else if st.Take? || st.Answered? { PoolMirrored(s, g, st, keep); }
    else if st.Crash? || st.Recover? || st.Requeue? { RestartMirrored(s, g, st, keep); }
    else { OutsideMirrored(s, g, st, keep); }
  }

  // ---------- runs ----------

  /** The run of the part. */
  function MirrorRun(s: Sys, run: seq<Step>, keep: set<ContainerId>): seq<Step>
    requires Feasible(s, run)
    decreases |run|
  {
    if run == [] then [] else Mirror(s, run[0], keep) + MirrorRun(Apply(s, run[0]), run[1..], keep)
  }

  /** The mirrored run leads, step for step, through what the run looks like to the kept containers. */
  lemma {:induction false} RunMirrored(s: Sys, g: Sys, run: seq<Step>, keep: set<ContainerId>)
    requires Good(s) && Shows(s, g, keep) && Feasible(s, run)
    ensures Feasible(g, MirrorRun(s, run, keep))
    ensures Shows(Final(s, run), Final(g, MirrorRun(s, run, keep)), keep)
    decreases |run|
  {
    if run != [] {
      var m, t, rest := Mirror(s, run[0], keep), Apply(s, run[0]), MirrorRun(Apply(s, run[0]), run[1..], keep);
      StepGood(s, run[0]);
      StepMirrored(s, g, run[0], keep);
      if m == [] {
        assert MirrorRun(s, run, keep) == rest;
        RunMirrored(t, g, run[1..], keep);
      } else {
        assert MirrorRun(s, run, keep)[0] == m[0] && MirrorRun(s, run, keep)[1..] == rest;
        RunMirrored(t, Apply(g, m[0]), run[1..], keep);
      }
    }
  }

  /** Containers do not interfere. Take any reachable state, whatever requests, workers, crashes and
      restarts led to it, and any set of containers: what these containers see of it is itself a
      reachable state of the system, with the others never there. */
  lemma NoInterference(s: Sys, keep: set<ContainerId>) returns (g: Sys)
    requires Reachable(s)
    ensures Reachable(g) && Shows(s, g, keep)
  {
    var s0, run :| Init(s0) && Feasible(s0, run) && s == Final(s0, run);
    InitGood(s0);
    assert OnlyWorkers(s0.workers, keep) == s0.workers;
    assert Shows(s0, s0, keep);
    RunMirrored(s0, s0, run, keep);
    g := Final(s0, MirrorRun(s0, run, keep));
  }
}
