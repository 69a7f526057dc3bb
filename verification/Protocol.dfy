/** The job protocol as one transition system: requests, the job channel, the worker pool,
    the start-up recovery, the cleaner, and the environment that can fail any call, stop
    any Docker container and crash the process between any two steps. */
module Protocol {
  import opened Domain
  import opened Store
  import opened WorkerSteps

  /** Which of the two locks guards admission: the in-memory mutex per container, and the
      row lock held by the guarding transaction. */
  datatype Locking = Locking(mutex: bool, rowLock: bool)

  datatype Phase = Up | Down | Swept

  /** How far a request has come. The first four stages are those of Start, Stop and Delete;
      NewRow and NewJob are the two writes of Create; all of them end in Send. */
  datatype Stage =
    | AwaitMutex
    | AwaitRow
    | CheckJobs(seen: Container)
    | Insert(seen: Container)
    | NewRow(row: Container)
    | NewJob
    | Send

  datatype Request = Request(job: Job, stage: Stage)

  /** History variables: no step reads them.
      jobIds, rowIds: every ID ever drawn.
      split:    containers for which a guard admitted a request between Create's two writes.
      unchecked: containers for which a guard admitted a request because its look-up of
                active jobs failed, which the guard takes for "none".
      stale:    containers for which a guard admitted a request although the status it had read was
                out of date: the row was gone, or no longer in a status that permits the request.
      drift:    containers whose row may trail Docker: a START job launched the Docker container
                but Docker's answer was lost, or its row write was given up or cut off by a crash;
                a confirmed write repairs it.
      blurred:  containers with a row write that took effect although it reported an error.
      orphans:  containers for which a CREATE job left a Docker container behind that its row does not
                carry: Docker's answer to the creation was lost, the clean-up after a failed start had
                no effect, or the row write was given up or cut off by a crash.
      born:     containers whose CREATE job was recorded as successful.
      stranded: jobs no channel of this process will deliver.
      unmarked: jobs whose RUNNING write failed in this process.
      stuck:    jobs left RUNNING by a failed final write or a failed start-up recovery. */
  datatype History = History(
    jobIds: set<JobId>,
    rowIds: set<ContainerId>,
    split: set<ContainerId>,
    unchecked: set<ContainerId>,
    stale: set<ContainerId>,
    drift: set<ContainerId>,
    blurred: set<ContainerId>,
    orphans: set<ContainerId>,
    born: set<ContainerId>,
    stranded: set<JobId>,
    unmarked: set<JobId>,
    stuck: set<JobId>)

  datatype Sys = Sys(
    locking: Locking,
    w: World,
    queue: seq<Job>,
    workers: seq<Proc>,
    reqs: map<JobId, Request>,
    mutex: map<ContainerId, JobId>,
    locks: map<ContainerId, JobId>,
    phase: Phase,
    clock: Time,
    hist: History)

  datatype Step =
    | CallGuarded(job: Job)
    | CallCreate(job: Job, row: Container)
    | Serve(id: JobId, reply: Reply)
    | Quit(id: JobId)
    | Take(i: nat)
    | Answered(i: nat, a: Answer)
    | Halts(d: DockerId)
    | Tick
    | Clean(reply: Reply)
    | Crash
    | Recover(reply: Reply)
    | Requeue(listing: seq<Job>, read: nat)

  // ---------- admission ----------

  predicate NewlyMade(job: Job, now: Time) {
    job.status == JobPending && job.error == None && job.completedAt == None && job.createdAt == now
  }

  predicate NewlyMadeRow(row: Container, now: Time) {
    row.status == Created && row.dockerId == None && row.createdAt == now && row.updatedAt == now
  }

  /** The status part of the guards: Stop wants Running, Start and Delete refuse it. */
  predicate StatusAllows(kind: JobKind, status: ContainerStatus) {
    match kind
    case StartContainer => status != Running
    case StopContainer => status == Running
    case DeleteContainer => status != Running
    case CreateContainer => false
  }

  predicate Permits(w: World, kind: JobKind, c: ContainerId) { c in w.rows && StatusAllows(kind, w.rows[c].status) }

  predicate NameFree(w: World, row: Container) {
    forall c :: c in w.rows ==> !(w.rows[c].owner == row.owner && w.rows[c].name == row.name)
  }

  /** Whether the next stage of a request can be passed. The guard takes a failed look-up of
      active jobs for an empty one; inside a transaction the failure dooms the insert, so
      there the request can only quit. */
  predicate CanServe(s: Sys, r: Request, reply: Reply) {
    var c := r.job.target;
    match r.stage
    case AwaitMutex => s.locking.mutex ==> c !in s.mutex
    case AwaitRow => c in s.w.rows && s.w.rows[c].owner == r.job.user && (s.locking.rowLock ==> c !in s.locks)
    case CheckJobs(seen) =>
      && StatusAllows(r.job.kind, seen.status)
      && (if reply.Done? then !HasActiveJob(s.w, c) else !s.locking.rowLock)
    case Insert(_) => true
    case NewRow(row) => NameFree(s.w, row)
    case NewJob => true
    case Send => true
  }

  /** A request arrives with IDs it has drawn itself. */
  function Call(s: Sys, r: Request, rowIds: set<ContainerId>): Sys {
    s.(reqs := s.reqs[r.job.id := r], hist := s.hist.(jobIds := s.hist.jobIds + {r.job.id}, rowIds := rowIds))
  }

  function Without(m: map<ContainerId, JobId>, c: ContainerId, j: JobId): map<ContainerId, JobId> {
    if c in m && m[c] == j then m - {c} else m
  }

  /** A request returns: its deferred unlock runs and its transaction is over. */
  function Leave(s: Sys, r: Request): Sys {
    s.(reqs := s.reqs - {r.job.id},
       mutex := Without(s.mutex, r.job.target, r.job.id),
       locks := Without(s.locks, r.job.target, r.job.id))
  }

  function Goto(s: Sys, r: Request, stage: Stage): Sys {
    s.(reqs := s.reqs[r.job.id := r.(stage := stage)])
  }

  function Strand(s: Sys, j: JobId): Sys {
    s.(hist := s.hist.(stranded := s.hist.stranded + {j}))
  }

  /** Another request for this container stands between Create's two writes. */
  predicate BetweenWrites(s: Sys, c: ContainerId) {
    exists j :: j in s.reqs && s.reqs[j].job.target == c && s.reqs[j].stage == NewJob
  }

  /** A guard passes its look-up of active jobs. */
  function PastGuard(s: Sys, job: Job, reply: Reply): History {
    var c := job.target;
    s.hist.(split := if BetweenWrites(s, c) then s.hist.split + {c} else s.hist.split,
            unchecked := if reply.Done? then s.hist.unchecked else s.hist.unchecked + {c},
            stale := if Permits(s.w, job.kind, c) then s.hist.stale else s.hist.stale + {c})
  }

  /** The job row becomes visible: the guarding transaction commits, or Create's insert runs. */
  function Publish(s: Sys, r: Request): Sys {
    Goto(s, r, Send).(
      w := s.w.(jobs := s.w.jobs[r.job.id := r.job]),
      locks := Without(s.locks, r.job.target, r.job.id))
  }

  function SaveJob(s: Sys, r: Request, reply: Reply): Sys {
    match reply
    case Done => Publish(s, r)
    case Refused => Leave(s, r)
    case Lost => Strand(Leave(Publish(s, r), r), r.job.id)
  }

  /** The container row becomes visible; Create then makes its job. */
  function Found(s: Sys, r: Request, row: Container): Sys {
    Goto(s, r.(job := r.job.(createdAt := s.clock)), NewJob).(w := s.w.(rows := s.w.rows[row.id := row]))
  }

  function SaveRow(s: Sys, r: Request, row: Container, reply: Reply): Sys {
    match reply
    case Done => Found(s, r, row)
    case Refused => Leave(s, r)
    case Lost => Leave(Found(s, r, row), r)
  }

  function Enqueue(s: Sys, job: Job): Sys { s.(queue := s.queue + [job]) }

  function ServeNext(s: Sys, r: Request, reply: Reply): Sys {
    var c := r.job.target;
    match r.stage
    case AwaitMutex =>
      var r' := r.(job := r.job.(createdAt := s.clock));
      Goto(s, r', AwaitRow).(mutex := if s.locking.mutex then s.mutex[c := r.job.id] else s.mutex)
    case AwaitRow =>
      if c in s.w.rows then
        Goto(s, r, CheckJobs(s.w.rows[c])).(locks := if s.locking.rowLock then s.locks[c := r.job.id] else s.locks)
      else Leave(s, r)
    case CheckJobs(seen) =>
      Goto(s, r, Insert(seen)).(hist := PastGuard(s, r.job, reply))
    case Insert(_) => SaveJob(s, r, reply)
    case NewRow(row) => SaveRow(s, r, row, reply)
    case NewJob => SaveJob(s, r, reply)
    case Send =>
      if reply.Done? && |s.queue| < CHANNEL_CAPACITY then Enqueue(Leave(s, r), r.job)
      else Strand(Leave(s, r), r.job.id)
  }

  /** What serving a request can reach: one new job row, one new container row, its locks, the channel. */
  predicate Reach(s: Sys, r: Request, t: Sys) {
    && t.workers == s.workers && t.w.docker == s.w.docker && t.w.made == s.w.made
    && t.phase == s.phase && t.locking == s.locking && t.clock == s.clock
    && t.hist == s.hist.(split := t.hist.split, unchecked := t.hist.unchecked, stale := t.hist.stale, stranded := t.hist.stranded)
    && (t.w.rows == s.w.rows || (r.stage.NewRow? && t.w.rows == s.w.rows[r.stage.row.id := r.stage.row]))
    && (forall j :: j in t.reqs && !(j in s.reqs && t.reqs[j] == s.reqs[j]) ==>
          j == r.job.id && t.reqs[j].job.target == r.job.target && !t.reqs[j].stage.NewRow?)
    && (t.w.jobs == s.w.jobs || ((r.stage.Insert? || r.stage.NewJob?) && t.w.jobs == s.w.jobs[r.job.id := r.job]))
  }

  lemma SaveJobReach(s: Sys, r: Request, reply: Reply)
    requires r.stage.Insert? || r.stage.NewJob?
    ensures Reach(s, r, SaveJob(s, r, reply))
  {
  }

  lemma SaveRowReach(s: Sys, r: Request, reply: Reply)
    requires r.stage.NewRow?
    ensures Reach(s, r, SaveRow(s, r, r.stage.row, reply))
  {
  }

  lemma ServeReach(s: Sys, r: Request, reply: Reply)
    ensures Reach(s, r, ServeNext(s, r, reply))
  {
    match r.stage
    case Insert(_) => SaveJobReach(s, r, reply);
    case NewJob => SaveJobReach(s, r, reply);
    case NewRow(_) => SaveRowReach(s, r, reply);
    case _ =>
  }

  lemma ServeAppends(s: Sys, r: Request, reply: Reply)
    ensures ServeNext(s, r, reply).queue == s.queue || ServeNext(s, r, reply).queue == s.queue + [r.job]
  {
  }

  // ---------- workers ----------

  /** A worker whose next write of a container row would wait for the row lock. */
  predicate Blocked(s: Sys, p: Proc) {
    p.Busy? && (p.pc.WriteRow? || p.pc.DropRow?) && p.job.target in s.locks
  }

  /** Docker runs what a START job launched, and the row does not say so yet. */
  predicate Launched(p: Proc) {
    p.Busy? && p.job.kind == StartContainer && (p.pc.WaitExit? || p.pc.Inspect? || p.pc.WriteRow?)
  }

  /** The row carries this Docker ID. */
  predicate Carries(w: World, c: ContainerId, d: Option<DockerId>) { c in w.rows && w.rows[c].dockerId == d }

  /** The Docker container that a CREATE job has made and has not recorded yet. */
  function Unrecorded(p: Proc): Option<DockerId> {
    if p.Idle? || p.job.kind != CreateContainer then None
    else match p.pc
         case FirstStart(_, d) => Some(d)
         case Cleanup(d) => Some(d)
         case WaitExit(_, d) => Some(d)
         case Inspect(_, d) => Some(d)
         case WriteRow(c, _) => c.dockerId
         case _ => None
  }

  /** Cut off here, the job leaves its Docker container without a row that carries it. */
  predicate LeavesOrphan(w: World, p: Proc) {
    p.Busy? && Unrecorded(p).Some? && Unrecorded(p).value in w.docker && !Carries(w, p.job.target, Unrecorded(p))
  }

  /** How the history moves when worker p's call is answered and leaves it at p'. */
  function Record(h: History, w: World, p: Proc, a: Answer, p': Proc): History
    requires p.Busy?
  {
    var c := p.job.target;
    match p.pc
    case Mark => if a.reply.TookEffect() then h else h.(unmarked := h.unmarked + {p.job.id})
    case DockerStart(_, d) => if a.reply.Lost? && d in w.docker then h.(drift := h.drift + {c}) else h
    case DockerCreate(row) => if a.reply.Lost? && !NameTaken(w, row.id) then h.(orphans := h.orphans + {c}) else h
    case Cleanup(d) => if a.reply.Refused? && d in w.docker then h.(orphans := h.orphans + {c}) else h
    case WriteRow(row, _) =>
      h.(orphans := if p'.Busy? && p'.pc == Finish(Some(DatabaseError)) && LeavesOrphan(w, p) && !(a.reply.Lost? && c in w.rows)
                    then h.orphans + {c} else h.orphans,
         drift := if Confirmed(w, row.id, a.reply) then h.drift - {c}
                  else if Launched(p) && !Launched(p') then h.drift + {c} else h.drift,
         blurred := if a.reply.Lost? then h.blurred + {c} else h.blurred)
    case DropRow(_) =>
      h.(blurred := if a.reply.Lost? then h.blurred + {c} else h.blurred)
    case Finish(v) =>
      if !a.reply.TookEffect() then h.(stuck := h.stuck + {p.job.id})
      else if v.None? && p.job.kind == CreateContainer then h.(born := h.born + {c})
      else h
    case _ => h
  }

  // ---------- start-up, cleaner ----------

  predicate Expired(job: Job, now: Time) {
    job.Ended() && job.completedAt.Some? && job.completedAt.value + JOB_RETENTION < now
  }

  function DeleteExpired(jobs: map<JobId, Job>, now: Time): map<JobId, Job> {
    map j | j in jobs && !Expired(jobs[j], now) :: jobs[j]
  }

  function MarkRunningAsFailed(jobs: map<JobId, Job>): map<JobId, Job> {
    map j | j in jobs ::
      if jobs[j].status == JobRunning then jobs[j].(status := JobFailed, error := Some(Interrupted)) else jobs[j]
  }

  function RunningJobs(jobs: map<JobId, Job>): set<JobId> { set j | j in jobs && jobs[j].status == JobRunning }

  function PendingJobs(jobs: map<JobId, Job>): set<JobId> { set j | j in jobs && jobs[j].status == JobPending }

  predicate DistinctIds(js: seq<Job>) { forall a, b :: 0 <= a < b < |js| ==> js[a].id != js[b].id }

  /** What the query for PENDING rows in creation order may return. */
  predicate IsListing(jobs: map<JobId, Job>, listing: seq<Job>) {
    && DistinctIds(listing)
    && (forall k :: 0 <= k < |listing| ==> listing[k].id in PendingJobs(jobs) && listing[k] == jobs[listing[k].id])
    && (forall j :: j in PendingJobs(jobs) ==> jobs[j] in listing)
    && (forall a, b :: 0 <= a < b < |listing| ==> listing[a].createdAt <= listing[b].createdAt)
  }

  /** The part of the listing that fits into the fresh channel. */
  function Fitting(listing: seq<Job>): seq<Job> {
    if |listing| <= CHANNEL_CAPACITY then listing else listing[..CHANNEL_CAPACITY]
  }

  function Ids(js: seq<Job>): set<JobId> { set k | 0 <= k < |js| :: js[k].id }

  function CrashedStarts(s: Sys): set<ContainerId> {
    set i | 0 <= i < |s.workers| && Launched(s.workers[i]) :: s.workers[i].job.target
  }

  function CrashedCreates(s: Sys): set<ContainerId> {
    set i | 0 <= i < |s.workers| && LeavesOrphan(s.w, s.workers[i]) :: s.workers[i].job.target
  }

  // ---------- steps ----------

  predicate Enabled(s: Sys, st: Step) {
    match st
    case CallGuarded(job) =>
      && s.phase == Up && job.id !in s.hist.jobIds && NewlyMade(job, s.clock) && job.kind != CreateContainer
    case CallCreate(job, row) =>
      && s.phase == Up && job.id !in s.hist.jobIds && NewlyMade(job, s.clock) && job.kind == CreateContainer
      && row.id == job.target && row.id !in s.hist.rowIds && row.owner == job.user && NewlyMadeRow(row, s.clock)
    case Serve(j, reply) => s.phase == Up && j in s.reqs && CanServe(s, s.reqs[j], reply)
    case Quit(j) => s.phase == Up && j in s.reqs && s.reqs[j].stage != Send
    case Take(i) => s.phase == Up && i < |s.workers| && s.workers[i].Idle? && |s.queue| > 0
    case Answered(i, a) =>
      && s.phase == Up && i < |s.workers| && s.workers[i].Busy? && !Blocked(s, s.workers[i])
      && Allowed(s.w, s.workers[i].pc, a) && a.now == s.clock
    case Halts(d) => d in s.w.docker
    case Tick => true
    case Clean(_) => s.phase == Up
    case Crash => true
    case Recover(_) => s.phase == Down
    // A query that fails half-way returns the rows read so far, and start-up goes on with them.
    case Requeue(listing, read) => s.phase == Swept && IsListing(s.w.jobs, listing) && read <= |listing|
  }

  function TakeJob(s: Sys, i: nat): Sys
    requires i < |s.workers| && |s.queue| > 0
  {
    var job := s.queue[0];
    s.(queue := s.queue[1..], workers := s.workers[i := Busy(job, Mark, RowOf(s.w, job.target))])
  }

  function WorkOn(s: Sys, i: nat, a: Answer): Sys
    requires i < |s.workers| && s.workers[i].Busy?
  {
    var p := s.workers[i];
    var o := Work(s.w, p, a);
    s.(w := o.world, workers := s.workers[i := o.proc], hist := Record(s.hist, s.w, p, a, o.proc))
  }

  function Fall(s: Sys): Sys {
    s.(queue := [], workers := seq(|s.workers|, _ => Idle), reqs := map[], mutex := map[], locks := map[], phase := Down,
       hist := s.hist.(drift := s.hist.drift + CrashedStarts(s), orphans := s.hist.orphans + CrashedCreates(s), stranded := {}, unmarked := {}))
  }

  function SweepUp(s: Sys, reply: Reply): Sys {
    var jobs := if reply.TookEffect() then MarkRunningAsFailed(s.w.jobs) else s.w.jobs;
    s.(w := s.w.(jobs := jobs), phase := Swept, hist := s.hist.(stuck := RunningJobs(jobs)))
  }

  function Boot(s: Sys, queue: seq<Job>): Sys {
    s.(queue := queue, phase := Up, hist := s.hist.(stranded := PendingJobs(s.w.jobs) - Ids(queue)))
  }

  function Apply(s: Sys, st: Step): Sys
    requires Enabled(s, st)
  {
    match st
    case CallGuarded(job) => Call(s, Request(job, AwaitMutex), s.hist.rowIds)
    case CallCreate(job, row) => Call(s, Request(job, NewRow(row)), s.hist.rowIds + {row.id})
    case Serve(j, reply) => ServeNext(s, s.reqs[j], reply)
    case Quit(j) => Leave(s, s.reqs[j])
    case Take(i) => TakeJob(s, i)
    case Answered(i, a) => WorkOn(s, i, a)
    case Halts(d) => s.(w := Halt(s.w, d))
    case Tick => s.(clock := s.clock + 1)
    case Clean(reply) =>
      if reply.TookEffect() then s.(w := s.w.(jobs := DeleteExpired(s.w.jobs, s.clock))) else s
    case Crash => Fall(s)
    case Recover(reply) => SweepUp(s, reply)
    case Requeue(listing, read) => Boot(s, Fitting(listing[..read]))
  }

  // ---------- runs ----------

  /** The step of a process that stays up. */
  predicate Calm(st: Step) { !st.Crash? && !st.Recover? && !st.Requeue? }

  predicate Init(s: Sys) {
    && (s.locking.mutex || s.locking.rowLock)
    && s.w == World(map[], map[], map[], {})
    && s.queue == [] && |s.workers| > 0 && (forall i :: 0 <= i < |s.workers| ==> s.workers[i] == Idle)
    && s.reqs == map[] && s.mutex == map[] && s.locks == map[]
    && s.phase == Up
    && s.hist == History({}, {}, {}, {}, {}, {}, {}, {}, {}, {}, {}, {})
  }

  predicate Feasible(s: Sys, run: seq<Step>)
    decreases |run|
  {
    run == [] || (Enabled(s, run[0]) && Feasible(Apply(s, run[0]), run[1..]))
  }

  function Final(s: Sys, run: seq<Step>): Sys
    requires Feasible(s, run)
    decreases |run|
  {
    if run == [] then s else Final(Apply(s, run[0]), run[1..])
  }

  ghost predicate Reachable(s: Sys) {
    exists s0, run :: Init(s0) && Feasible(s0, run) && s == Final(s0, run)
  }
}
