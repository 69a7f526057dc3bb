/** The container service as it is written: four request methods over the repositories, the mutexes and
    the job channel. Every execution is a run of the protocol. */
module Service {
  import opened Domain
  import opened Store
  import opened Protocol
  import opened Solo
  import opened Environments
  import opened Repositories
  import opened Channel

  datatype ServiceError = ContainerNotFound | Forbidden | Conflict | InvalidEnvironment | NameDup | Unavailable503 | Internal

  datatype Result<T> = Success(value: T) | Failure(error: ServiceError)

  // ---------- the protocol steps behind the branches ----------

  /** The job row is there, but no channel will deliver the job. */
  function Abandoned(s: Sys, job: Job): Sys {
    Strand(s.(w := s.w.(jobs := s.w.jobs[job.id := job])), job.id)
  }

  lemma CalledHere(s: Sys, job: Job)
    requires Enabled(s, CallGuarded(job)) && Uncontended(s, job)
    ensures From(s, Standing(Known(s, job.id), job, AwaitRow))
  {
    FromItself(s);
    Called(s, s, job);
  }

  lemma QuitStanding(o: Sys, s: Sys, job: Job, stage: Stage)
    requires From(o, Standing(s, job, stage)) && s.phase == Up && Uncontended(s, job) && !stage.Send?
    ensures From(o, s)
  {
    var t := Standing(s, job, stage);
    ReachMore(o, t, Quit(job.id));
    assert t.reqs - {job.id} == s.reqs;
    assert s.mutex[job.target := job.id] - {job.target} == s.mutex;
    assert s.locks[job.target := job.id] - {job.target} == s.locks;
    assert Apply(t, Quit(job.id)) == s;
  }

  lemma InsertServed(o: Sys, s: Sys, job: Job, seen: Container, reply: Reply)
    requires From(o, Standing(s, job, Insert(seen))) && s.phase == Up && Uncontended(s, job)
    ensures From(o, match reply
                    case Done => Published(s, job)
                    case Refused => s
                    case Lost => Abandoned(s, job))
  {
    var t := Standing(s, job, Insert(seen));
    if reply.Refused? {
      QuitStanding(o, s, job, Insert(seen));
    } else {
      ReachMore(o, t, Serve(job.id, reply));
      InsertedStands(s, job, seen);
      PublishedLeaves(s, job);
      assert Apply(t, Serve(job.id, reply)) == SaveJob(t, t.reqs[job.id], reply);
    }
  }

  lemma PublishedLeaves(s: Sys, job: Job)
    requires Uncontended(s, job)
    ensures Leave(Published(s, job), Request(job, Send)) == s.(w := s.w.(jobs := s.w.jobs[job.id := job]))
    ensures forall seen :: Leave(Published(s, job), Request(job, Insert(seen))) == s.(w := s.w.(jobs := s.w.jobs[job.id := job]))
  {
    assert s.reqs[job.id := Request(job, Send)] - {job.id} == s.reqs;
    assert s.mutex[job.target := job.id] - {job.target} == s.mutex;
  }

  lemma SendServed(o: Sys, s: Sys, job: Job, sent: bool)
    requires From(o, Published(s, job)) && s.phase == Up && Uncontended(s, job)
    requires sent ==> |s.queue| < CHANNEL_CAPACITY
    ensures From(o, if sent then Admitted(s, job) else Abandoned(s, job))
  {
    var t, reply := Published(s, job), if sent then Done else Refused;
    ReachMore(o, t, Serve(job.id, reply));
    PublishedLeaves(s, job);
    assert Apply(t, Serve(job.id, reply)) == if sent then Admitted(s, job) else Abandoned(s, job);
  }

  /** The IDs a Create call has drawn. */
  function Drawn(s: Sys, j: JobId, c: ContainerId): Sys {
    s.(hist := s.hist.(jobIds := s.hist.jobIds + {j}, rowIds := s.hist.rowIds + {c}))
  }

  function WithRow(s: Sys, row: Container): Sys { s.(w := s.w.(rows := s.w.rows[row.id := row])) }

  predicate CanCreate(s: Sys, job: Job, row: Container) {
    Enabled(s, CallCreate(job, row)) && Uncontended(s, job)
  }

  lemma RowRefused(o: Sys, s: Sys, job: Job, row: Container)
    requires From(o, s) && CanCreate(s, job, row)
    ensures From(o, Drawn(s, job.id, row.id))
  {
    var t := Apply(s, CallCreate(job, row));
    ReachMore(o, s, CallCreate(job, row));
    ReachMore(o, t, Quit(job.id));
    assert t.reqs - {job.id} == s.reqs;
    assert Apply(t, Quit(job.id)) == Drawn(s, job.id, row.id);
  }

  lemma RowLost(o: Sys, s: Sys, job: Job, row: Container)
    requires From(o, s) && CanCreate(s, job, row) && NameFree(s.w, row)
    ensures From(o, WithRow(Drawn(s, job.id, row.id), row))
  {
    RowMade(o, s, job, row);
    var t := Founded(s, job, row);
    ReachMore(o, t, Quit(job.id));
    assert t.reqs - {job.id} == s.reqs;
    assert Apply(t, Quit(job.id)) == WithRow(Drawn(s, job.id, row.id), row);
  }

  /** Create between its second write and the hand-over. */
  function Offered(s: Sys, job: Job): Sys {
    s.(w := s.w.(jobs := s.w.jobs[job.id := job]), reqs := s.reqs[job.id := Request(job, Send)])
  }

  lemma CreateSaved(o: Sys, s: Sys, job: Job, reply: Reply)
    requires From(o, s.(reqs := s.reqs[job.id := Request(job, NewJob)])) && s.phase == Up && Uncontended(s, job)
    ensures From(o, match reply
                    case Done => Offered(s, job)
                    case Refused => s
                    case Lost => Abandoned(s, job))
  {
    var t := s.(reqs := s.reqs[job.id := Request(job, NewJob)]);
    ReachMore(o, t, Serve(job.id, reply));
    assert t.reqs - {job.id} == s.reqs;
    assert t.reqs[job.id := Request(job, Send)] == s.reqs[job.id := Request(job, Send)];
    assert s.reqs[job.id := Request(job, Send)] - {job.id} == s.reqs;
  }

  lemma OfferServed(o: Sys, s: Sys, job: Job, sent: bool)
    requires From(o, Offered(s, job)) && s.phase == Up && Uncontended(s, job)
    requires sent ==> |s.queue| < CHANNEL_CAPACITY
    ensures From(o, if sent then Admitted(s, job) else Abandoned(s, job))
  {
    var t, reply := Offered(s, job), if sent then Done else Refused;
    ReachMore(o, t, Serve(job.id, reply));
    assert t.reqs - {job.id} == s.reqs;
    assert Apply(t, Serve(job.id, reply)) == if sent then Admitted(s, job) else Abandoned(s, job);
  }

  // ---------- the service ----------

  class ContainerService {
    const env: Environment
    const containerRepo: ContainerRepository
    const jobRepo: JobRepository
    const jobChan: JobChannel
    const environments: set<string>
    /** Whether requests are guarded by a transaction with a row lock, or by the mutex alone. */
    const hasTx: bool
    /** The containers whose mutex is held. */
    var containerMu: set<ContainerId>
    var nextJob: JobId
    var nextRow: ContainerId
    var clock: Time
    /** The protocol state this service is part of. */
    ghost var sys: Sys

    constructor (containerRepo: ContainerRepository, jobRepo: JobRepository, jobChan: JobChannel,
                 environments: set<string>, hasTx: bool, ghost workers: nat)
      requires containerRepo.rows == map[] && jobRepo.jobs == map[] && jobChan.items == [] && workers > 0
      requires containerRepo.env == jobRepo.env
      ensures Valid() && Init(sys) && containerMu == {}
      ensures this.containerRepo == containerRepo && this.jobRepo == jobRepo && this.jobChan == jobChan
      ensures this.environments == environments && this.hasTx == hasTx
    {
      env := jobRepo.env;
      this.containerRepo, this.jobRepo, this.jobChan := containerRepo, jobRepo, jobChan;
      this.environments, this.hasTx := environments, hasTx;
      containerMu, nextJob, nextRow, clock := {}, 0, 0, 0;
      sys := Sys(Locking(true, hasTx), World(map[], map[], map[], {}), [], seq(workers, _ => WorkerSteps.Idle), map[], map[], map[],
                 Up, 0, History({}, {}, {}, {}, {}, {}, {}, {}, {}, {}, {}, {}));
    }

    ghost predicate Valid()
      reads this, containerRepo, jobRepo, jobChan
    {
      Tied() && sys.mutex.Keys == containerMu
    }

    /** The repositories and the channel are what the protocol state says. */
    ghost predicate Tied()
      reads this, containerRepo, jobRepo, jobChan
    {
      && containerRepo.env == env && jobRepo.env == env
      && sys.w.rows == containerRepo.rows && sys.w.jobs == jobRepo.jobs && sys.queue == jobChan.items && jobChan.Valid()
      && sys.locking == Locking(true, hasTx) && sys.phase == Up && sys.clock == clock
      && (forall j :: j in sys.hist.jobIds || j in sys.reqs || j in sys.w.jobs ==> j < nextJob)
      && (forall c :: c in sys.hist.rowIds || c in sys.w.rows ==> c < nextRow)
    }

    /** No goroutine is inside this container: a call that had to wait would not be running yet. */
    ghost predicate Free(c: ContainerId)
      reads this
    {
      c !in sys.mutex && c !in sys.locks
    }

    function NewJob(user: UserId, c: ContainerId, kind: JobKind): Job
      reads this
    {
      Job(nextJob, user, c, kind, JobPending, None, clock, None)
    }

    /** FOR UPDATE inside a transaction, plainly otherwise; the answer to the reader is the same. */
    method FindContainerForGuard(c: ContainerId) returns (found: Option<Container>, error: ServiceError)
      requires containerRepo.env == env
      modifies env
      ensures env.asked == old(env.asked) + 1
      ensures found == if old(env.Next(0)).Done? && c in containerRepo.rows then Some(containerRepo.rows[c]) else None
      ensures error == if old(env.Next(0)).Done? then ContainerNotFound else Internal
    {
      var reply;
      found, reply := containerRepo.FindByID(c);
      error := if reply.Done? then ContainerNotFound else Internal;
    }

    /** From s0 to s only the job's row, the channel and the history have moved. */
    ghost predicate Moved(s0: Sys, s: Sys, job: Job) {
      && s == s0.(w := s0.w.(jobs := s.w.jobs), queue := s.queue, hist := s.hist)
      && s.hist.jobIds == s0.hist.jobIds + {job.id} && s.hist.rowIds == s0.hist.rowIds
    }

    // ---------- what a Start, Stop or Delete call comes to ----------

    /** The row allows the operation: it says Running if and only if it is to be stopped. */
    ghost predicate Ready(job: Job)
      reads containerRepo
    {
      job.target in containerRepo.rows && (containerRepo.rows[job.target].status == Running <==> job.kind == StopContainer)
    }

    /** Why the guard refuses, if it does: the reply to the read and the reply to the look-up of active jobs
        decide, together with the row. A look-up without an answer counts as "no active job". */
    ghost function Refusal(job: Job, read: Reply, look: Reply): Option<ServiceError>
      reads containerRepo, jobRepo
    {
      var c, rows := job.target, containerRepo.rows;
      if !read.Done? then Some(Internal)
      else if c !in rows then Some(ContainerNotFound)
      else if rows[c].owner != job.user then Some(Forbidden)
      else if !Ready(job) || (look.Done? && exists j :: j in jobRepo.jobs && jobRepo.jobs[j].target == c && jobRepo.jobs[j].Active())
        then Some(Conflict)
      else None
    }

    /** What becomes of the insert, when `look` was the reply to the look-up and the first reply to come is
        that to the insert itself. In a transaction a commit follows, unless a statement has failed. */
    ghost function Insertion(look: Reply): Reply
      reads env
    {
      if !hasTx then env.Next(0) else if look.Done? && env.Next(0).Done? then env.Next(1) else Refused
    }

    /** Refused, or what becomes of the insert. */
    ghost function Inserted(job: Job): Reply
      reads containerRepo, jobRepo, env
    {
      if Refusal(job, env.Next(0), env.Next(1)).Some? then Refused
      else if !hasTx then env.Next(2)
      else if env.Next(1).Done? && env.Next(2).Done? then env.Next(3) else Refused
    }

    /** The answer of the whole call, and None for success. */
    ghost function Verdict(job: Job): Option<ServiceError>
      reads containerRepo, jobRepo, jobChan, env
    {
      var refusal := Refusal(job, env.Next(0), env.Next(1));
      if refusal.Some? then refusal
      else if !Inserted(job).Done? then Some(Internal)
      else if !env.Next(if hasTx then 4 else 3).Done? || |jobChan.items| >= CHANNEL_CAPACITY then Some(Unavailable503)
      else None
    }

    /** INSERT of the job, and the commit when there is a transaction. In a transaction a failed insert,
        like any earlier failed statement, leaves nothing to commit. */
    method SaveJob(job: Job, look: Reply) returns (reply: Reply)
      requires jobRepo.env == env && job.id !in jobRepo.jobs
      modifies jobRepo, env
      ensures reply == old(Insertion(look))
      ensures jobRepo.jobs == if reply.TookEffect() then old(jobRepo.jobs)[job.id := job] else old(jobRepo.jobs)
      ensures reply.Done? ==> env.asked == old(env.asked) + (if hasTx then 2 else 1)
    {
      if hasTx {
        var staged := env.Ask();
        if !look.Done? || !staged.reply.Done? { return Refused; }
      }
      reply := jobRepo.Save(job);
    }

    /** The guard up to its insert: reads the row, looks for active jobs and checks the status. A failed
        look-up counts as "no active job"; inside a transaction it dooms the insert. */
    method Guard(job: Job) returns (seen: Option<Container>, error: Option<ServiceError>, look: Reply, ghost k: Sys)
      requires Tied() && job == NewJob(job.user, job.target, job.kind) && job.kind != CreateContainer && Free(job.target)
      requires job.target in containerMu && From(sys, Standing(Known(sys, job.id), job, AwaitRow))
      modifies env
      ensures Moved(sys, k, job) && k.queue == sys.queue && k.w.jobs == sys.w.jobs
      ensures error == old(Refusal(job, env.Next(0), env.Next(1)))
      ensures error.None? ==> look == old(env.Next(1)) && env.asked == old(env.asked) + 2
      ensures seen.Some? <==> error.None?
      ensures seen.None? || (hasTx && !look.Done?) ==> From(sys, k)
      ensures seen.Some? && !(hasTx && !look.Done?) ==> From(sys, Standing(k, job, Insert(seen.value)))
    {
      k, look := Known(sys, job.id), Refused;
      var found, why;
      found, why := FindContainerForGuard(job.target);
      if found.None? || found.value.owner != job.user {
        QuitStanding(sys, k, job, AwaitRow);
        return None, Some(if found.None? then why else Forbidden), look, k;
      }
      RowRead(sys, k, job);
      var active;
      active, look := jobRepo.FindPendingOrRunningByTarget(job.target);
      if active.Some? || !StatusAllows(job.kind, found.value.status) {
        QuitStanding(sys, k, job, CheckJobs(found.value));
        return None, Some(Conflict), look, k;
      }
      seen, error := found, None;
      if hasTx && !look.Done? {
        QuitStanding(sys, k, job, CheckJobs(found.value));
      } else {
        ghost var u := Checked(sys, k, job, found.value, look);
        k := k.(hist := u.hist);
      }
    }

    /** Runs the guard, in a transaction if there is one. */
    method RunGuarded(job: Job) returns (error: Option<ServiceError>)
      requires Tied() && job == NewJob(job.user, job.target, job.kind) && job.kind != CreateContainer && Free(job.target)
      requires job.target in containerMu && From(sys, Standing(Known(sys, job.id), job, AwaitRow))
      modifies this`sys, jobRepo, env
      ensures Moved(old(sys), sys, job) && sys.queue == old(sys.queue)
      ensures var refusal, inserted := old(Refusal(job, env.Next(0), env.Next(1))), old(Inserted(job));
        && error == (if refusal.Some? then refusal else if inserted.Done? then None else Some(Internal))
        && jobRepo.jobs == (if inserted.TookEffect() then old(jobRepo.jobs)[job.id := job] else old(jobRepo.jobs))
      ensures error == None ==>
                && sys.w.jobs == old(sys.w.jobs) && From(old(sys), Published(sys, job))
                && env.asked == old(env.asked) + (if hasTx then 4 else 3)
      ensures error != None ==> From(old(sys), sys) && sys.w.jobs == jobRepo.jobs
    {
      var seen, why, look, k := Guard(job);
      if why.Some? {
        sys := k;
        return why;
      }
      assert env.Next(0) == old(env.Next(2)) && env.Next(1) == old(env.Next(3));
      assert Insertion(look) == old(Inserted(job));
      var saved := InsertGuarded(job, look, seen.value, k);
      error := if saved.Done? then None else Some(Internal);
    }

    /** The insert behind the guard. */
    method InsertGuarded(job: Job, look: Reply, ghost seen: Container, ghost k: Sys) returns (saved: Reply)
      requires jobRepo.env == env && job.id !in jobRepo.jobs && k.phase == Up && Uncontended(k, job) && k.w.jobs == jobRepo.jobs
      requires From(sys, if hasTx && !look.Done? then k else Standing(k, job, Insert(seen)))
      modifies this`sys, jobRepo, env
      ensures saved == old(Insertion(look))
      ensures saved.Done? ==> env.asked == old(env.asked) + (if hasTx then 2 else 1)
      ensures jobRepo.jobs == if saved.TookEffect() then old(jobRepo.jobs)[job.id := job] else old(jobRepo.jobs)
      ensures sys == if saved.Lost? then Abandoned(k, job) else k
      ensures From(old(sys), if saved.Done? then Published(sys, job) else sys)
    {
      saved := SaveJob(job, look);
      if !(hasTx && !look.Done?) { InsertServed(sys, k, job, seen, saved); }
      sys := if saved.Lost? then Abandoned(k, job) else k;
    }

    /** Hands the job to the channel; when the deadline passes first, the job row stays behind. */
    method SendJob(job: Job, ghost s0: Sys) returns (error: Option<ServiceError>)
      requires jobChan.Valid() && sys.queue == jobChan.items && sys.phase == Up && Uncontended(sys, job)
      requires job.target in containerMu && From(s0, Published(sys, job))
      modifies this`sys, jobChan, env
      ensures jobChan.Valid() && From(s0, sys)
      ensures error == if old(env.Next(0)).Done? && |old(jobChan.items)| < CHANNEL_CAPACITY then None else Some(Unavailable503)
      ensures error == None ==> sys == Admitted(old(sys), job) && jobChan.items == old(jobChan.items) + [job]
      ensures error != None ==> sys == Abandoned(old(sys), job) && jobChan.items == old(jobChan.items)
    {
      var waited := env.Ask();
      var sent := jobChan.SendUntil(job, !waited.reply.Done?);
      SendServed(s0, sys, job, sent);
      sys := if sent then Admitted(sys, job) else Abandoned(sys, job);
      error := if sent then None else Some(Unavailable503);
    }

    /** The result of a Start, Stop or Delete call, and what has become of its job: it is exactly what the
        row, the active jobs, the room in the channel and the replies to the calls determine. */
    twostate predicate Outcome(job: Job, new r: Result<Job>)
      reads this, containerRepo, jobRepo, jobChan, env
    {
      var verdict := old(Verdict(job));
      && r == (if verdict.None? then Success(job) else Failure(verdict.value))
      && jobRepo.jobs == (if old(Inserted(job)).TookEffect() then old(jobRepo.jobs)[job.id := job] else old(jobRepo.jobs))
      && jobChan.items == (if verdict.None? then old(jobChan.items) + [job] else old(jobChan.items))
    }

    twostate predicate Served(user: UserId, c: ContainerId, kind: JobKind, new r: Result<Job>)
      reads this, containerRepo, jobRepo, jobChan, env
    {
      var job := old(NewJob(user, c, kind));
      From(old(sys), sys) && Moved(old(sys), sys, job) && containerMu == old(containerMu) && Outcome(job, r)
    }

    /** The guard and the hand-over, inside the mutex of the container. */
    method GuardAndSend(job: Job) returns (r: Result<Job>)
      requires Tied() && job == NewJob(job.user, job.target, job.kind) && job.kind != CreateContainer && Free(job.target)
      requires job.target in containerMu
      modifies this`sys, jobRepo, jobChan, env
      ensures sys.w.jobs == jobRepo.jobs && sys.queue == jobChan.items && jobChan.Valid()
      ensures From(old(sys), sys) && Moved(old(sys), sys, job) && Outcome(job, r)
    {
      ghost var s0 := sys;
      CalledHere(sys, job);
      var error := RunGuarded(job);
      if error.Some? { return Failure(error.value); }
      error := SendJob(job, s0);
      r := if error.None? then Success(job) else Failure(error.value);
    }

    /** The common part of Start, Stop and Delete. */
    method Admit(user: UserId, c: ContainerId, kind: JobKind) returns (r: Result<Job>)
      requires Valid() && Free(c) && kind != CreateContainer
      modifies this, jobRepo, jobChan, env
      ensures Valid() && Served(user, c, kind, r)
    {
      containerMu := containerMu + {c};
      var job := NewJob(user, c, kind);
      r := GuardAndSend(job);
      nextJob := nextJob + 1;
      containerMu := containerMu - {c};
    }

    method Start(user: UserId, c: ContainerId) returns (r: Result<Job>)
      requires Valid() && Free(c)
      modifies this, jobRepo, jobChan, env
      ensures Valid() && Served(user, c, StartContainer, r)
      ensures r.Success? || r == Failure(Conflict) ==> c in containerRepo.rows && containerRepo.rows[c].owner == user
      ensures r.Success? ==> containerRepo.rows[c].status != Running
      ensures r == Failure(Conflict) ==> containerRepo.rows[c].status == Running || old(HasActiveJob(sys.w, c))
    {
      r := Admit(user, c, StartContainer);
    }

    method Stop(user: UserId, c: ContainerId) returns (r: Result<Job>)
      requires Valid() && Free(c)
      modifies this, jobRepo, jobChan, env
      ensures Valid() && Served(user, c, StopContainer, r)
      ensures r.Success? || r == Failure(Conflict) ==> c in containerRepo.rows && containerRepo.rows[c].owner == user
      ensures r.Success? ==> containerRepo.rows[c].status == Running
      ensures r == Failure(Conflict) ==> containerRepo.rows[c].status != Running || old(HasActiveJob(sys.w, c))
    {
      r := Admit(user, c, StopContainer);
    }

    method Delete(user: UserId, c: ContainerId) returns (r: Result<Job>)
      requires Valid() && Free(c)
      modifies this, jobRepo, jobChan, env
      ensures Valid() && Served(user, c, DeleteContainer, r)
      ensures r.Success? || r == Failure(Conflict) ==> c in containerRepo.rows && containerRepo.rows[c].owner == user
      ensures r.Success? ==> containerRepo.rows[c].status != Running
      ensures r == Failure(Conflict) ==> containerRepo.rows[c].status == Running || old(HasActiveJob(sys.w, c))
    {
      r := Admit(user, c, DeleteContainer);
    }

    function NewRow(user: UserId, name: string, environment: string, command: seq<string>): Container
      reads this
    {
      Container(nextRow, user, name, environment, command, Created, None, clock, clock)
    }

    // ---------- what a Create call comes to ----------

    /** The owner has another container of this name. */
    ghost predicate NameInUse(user: UserId, name: string)
      reads containerRepo
    {
      exists e :: e in containerRepo.rows && containerRepo.rows[e].owner == user && containerRepo.rows[e].name == name
    }

    /** What becomes of the row's insert. */
    ghost function RowInserted(user: UserId, name: string): Reply
      reads containerRepo, env
    {
      if NameInUse(user, name) then Refused else env.Next(0)
    }

    /** The answer of the whole call, and None for success. The environment is checked beforehand. */
    ghost function CreateVerdict(user: UserId, name: string): Option<ServiceError>
      reads containerRepo, jobChan, env
    {
      if !env.Next(0).Done? then Some(Internal)
      else if NameInUse(user, name) then Some(NameDup)
      else if !env.Next(1).Done? then Some(Internal)
      else if !env.Next(2).Done? || |jobChan.items| >= CHANNEL_CAPACITY then Some(Unavailable503)
      else None
    }

    /** What a Create call has done, by its result. The row can be left without a job. */
    twostate predicate Made(user: UserId, name: string, environment: string, command: seq<string>, new r: Result<Job>)
      reads this, containerRepo, jobRepo, jobChan, env
    {
      var row := old(NewRow(user, name, environment, command));
      var job := old(NewJob(user, nextRow, CreateContainer));
      var known, verdict := environment in environments, old(CreateVerdict(user, name));
      && From(old(sys), sys) && containerMu == old(containerMu)
      && r == (if !known then Failure(InvalidEnvironment) else if verdict.None? then Success(job) else Failure(verdict.value))
      && containerRepo.rows == (if known && old(RowInserted(user, name)).TookEffect()
                                then old(containerRepo.rows)[row.id := row] else old(containerRepo.rows))
      && jobRepo.jobs == (if known && old(RowInserted(user, name)).Done? && old(env.Next(1)).TookEffect()
                          then old(jobRepo.jobs)[job.id := job] else old(jobRepo.jobs))
      && jobChan.items == (if known && verdict.None? then old(jobChan.items) + [job] else old(jobChan.items))
    }

    /** Two separate writes, without a mutex or a transaction around them. The new ID is drawn at
        random, so no other request is inside the new container. */
    method Create(user: UserId, name: string, environment: string, command: seq<string>) returns (r: Result<Job>)
      requires Valid() && Free(nextRow)
      modifies this, containerRepo, jobRepo, jobChan, env
      ensures Valid() && Made(user, name, environment, command, r)
    {
      if environment !in environments {
        FromItself(sys);
        return Failure(InvalidEnvironment);
      }
      var row := NewRow(user, name, environment, command);
      var job := NewJob(user, row.id, CreateContainer);
      r := RowAndJob(row, job);
      nextJob, nextRow := nextJob + 1, nextRow + 1;
    }

    /** The row first, then the job and its hand-over. */
    method RowAndJob(row: Container, job: Job) returns (r: Result<Job>)
      requires Valid() && Free(nextRow)
      requires row == NewRow(row.owner, row.name, row.environment, row.command) && job == NewJob(row.owner, row.id, CreateContainer)
      modifies this`sys, containerRepo, jobRepo, jobChan, env
      ensures jobChan.Valid() && From(old(sys), sys)
      ensures sys == old(sys).(w := old(sys.w).(rows := containerRepo.rows, jobs := jobRepo.jobs), queue := jobChan.items, hist := sys.hist)
      ensures sys.hist.jobIds == old(sys.hist.jobIds) + {job.id} && sys.hist.rowIds == old(sys.hist.rowIds) + {row.id}
      ensures var verdict, stored := old(CreateVerdict(row.owner, row.name)), old(RowInserted(row.owner, row.name));
        && r == (if verdict.None? then Success(job) else Failure(verdict.value))
        && containerRepo.rows == (if stored.TookEffect() then old(containerRepo.rows)[row.id := row] else old(containerRepo.rows))
        && jobRepo.jobs == (if stored.Done? && old(env.Next(1)).TookEffect() then old(jobRepo.jobs)[job.id := job] else old(jobRepo.jobs))
        && jobChan.items == (if verdict.None? then old(jobChan.items) + [job] else old(jobChan.items))
    {
      ghost var s0 := sys;
      var error := SaveRow(row, job);
      if error.Some? { return Failure(error.value); }
      assert env.Next(0) == old(env.Next(1)) && env.Next(1) == old(env.Next(2));
      r := SaveAndSend(job, s0);
    }

    /** The first half of Create. */
    method SaveRow(row: Container, job: Job) returns (error: Option<ServiceError>)
      requires Valid() && Free(nextRow)
      requires row == NewRow(row.owner, row.name, row.environment, row.command) && job == NewJob(row.owner, row.id, CreateContainer)
      modifies this`sys, containerRepo, env
      ensures env.asked == old(env.asked) + 1
      ensures sys == Drawn(old(sys), job.id, row.id).(w := old(sys.w).(rows := containerRepo.rows))
      ensures containerRepo.rows == if old(RowInserted(row.owner, row.name)).TookEffect()
                                    then old(containerRepo.rows)[row.id := row] else old(containerRepo.rows)
      ensures error == if !old(env.Next(0)).Done? then Some(Internal) else if old(NameInUse(row.owner, row.name)) then Some(NameDup) else None
      ensures error == None ==> From(old(sys), sys.(reqs := sys.reqs[job.id := Request(job, Stage.NewJob)]))
      ensures error.Some? ==> From(old(sys), sys)
    {
      ghost var s0 := sys;
      FromItself(s0);
      var failed, saved := containerRepo.Save(row);
      error := match failed case None => None case Some(Duplicate) => Some(NameDup) case Some(_) => Some(Internal);
      if failed.None? {
        RowMade(s0, s0, job, row);
        sys := WithRow(Drawn(s0, job.id, row.id), row);
        assert Founded(s0, job, row) == sys.(reqs := sys.reqs[job.id := Request(job, Stage.NewJob)]);
      } else if saved.TookEffect() {
        RowLost(s0, s0, job, row);
        sys := WithRow(Drawn(s0, job.id, row.id), row);
      } else {
        RowRefused(s0, s0, job, row);
        sys := Drawn(s0, job.id, row.id);
      }
    }

    /** The second half of Create. */
    method SaveAndSend(job: Job, ghost s0: Sys) returns (r: Result<Job>)
      requires sys.w.jobs == jobRepo.jobs && sys.queue == jobChan.items && jobChan.Valid() && jobRepo.env == env
      requires sys.phase == Up && Uncontended(sys, job) && job.id !in jobRepo.jobs
      requires From(s0, sys.(reqs := sys.reqs[job.id := Request(job, Stage.NewJob)]))
      modifies this`sys, jobRepo, jobChan, env
      ensures jobChan.Valid() && From(s0, sys) && sys.w.jobs == jobRepo.jobs && sys.queue == jobChan.items
      ensures sys == old(sys).(w := old(sys.w).(jobs := sys.w.jobs), queue := sys.queue, hist := sys.hist)
      ensures sys.hist.jobIds == old(sys.hist.jobIds) && sys.hist.rowIds == old(sys.hist.rowIds)
      ensures var saved, waited := old(env.Next(0)), old(env.Next(1));
        && r == (if !saved.Done? then Failure(Internal)
                 else if waited.Done? && |old(jobChan.items)| < CHANNEL_CAPACITY then Success(job) else Failure(Unavailable503))
        && jobRepo.jobs == (if saved.TookEffect() then old(jobRepo.jobs)[job.id := job] else old(jobRepo.jobs))
        && jobChan.items == (if r.Success? then old(jobChan.items) + [job] else old(jobChan.items))
    {
      var saved := jobRepo.Save(job);
      CreateSaved(s0, sys, job, saved);
      if !saved.Done? {
        sys := if saved.Lost? then Abandoned(sys, job) else sys;
        return Failure(Internal);
      }
      assert env.Next(0) == old(env.Next(1));
      var sent := Offer(job, s0);
      r := if sent then Success(job) else Failure(Unavailable503);
    }

    /** The hand-over of Create's job. */
    method Offer(job: Job, ghost s0: Sys) returns (sent: bool)
      requires jobChan.Valid() && sys.queue == jobChan.items && sys.phase == Up && Uncontended(sys, job)
      requires From(s0, Offered(sys, job))
      modifies this`sys, jobChan, env
      ensures jobChan.Valid() && From(s0, sys)
      ensures sent <==> old(env.Next(0)).Done? && |old(jobChan.items)| < CHANNEL_CAPACITY
      ensures sys == if sent then Admitted(old(sys), job) else Abandoned(old(sys), job)
      ensures jobChan.items == if sent then old(jobChan.items) + [job] else old(jobChan.items)
    {
      var waited := env.Ask();
      sent := jobChan.SendUntil(job, !waited.reply.Done?);
      OfferServed(s0, sys, job, sent);
      sys := if sent then Admitted(sys, job) else Abandoned(sys, job);
    }
  }
}
