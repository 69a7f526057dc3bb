/** The worker as it is written: one object over the repositories and the Docker client, working a
    job off call by call. Every execution is the path of the step machine under the same answers. */
module WorkerPool {
  import opened Domain
  import opened Store
  import opened WorkerSteps
  import opened Channel
  import opened Environments
  import opened Repositories
  import opened Schedules

  // ---------- the path of the step machine under the answers of an environment ----------

  /** What a worker hears when the environment reacts to the call it waits on. A wait can end with the
      container stopping, seen or unseen. `newId` is the ID Docker has for a new container. */
  function Heard(w: World, pc: Pc, r: Reaction, newId: DockerId): seq<Event> {
    if pc.WaitExit? then
      (if r.reply.TookEffect() && pc.d in w.docker then [Stops(pc.d)] else [])
      + [Event.Reply(Answer(if r.reply.Done? && pc.d in w.docker then Done else Refused, newId, r.number))]
    else [Event.Reply(Answer(r.reply, newId, r.number))]
  }

  /** A job begun at `from` whose first call is the environment's call number `start`. */
  datatype Track = Track(from: Outcome, reactions: nat -> Reaction, start: nat, newId: DockerId)

  /** Where one more reaction brings a worker, if it is still busy. */
  function React(o: Outcome, r: Reaction, newId: DockerId): Outcome {
    if o.proc.Idle? then o
    else if o.proc.pc.WaitExit? then
      var d := o.proc.pc.d;
      Work(if r.reply.TookEffect() then Halt(o.world, d) else o.world, o.proc,
           Answer(if r.reply.Done? && d in o.world.docker then Done else Refused, newId, r.number))
    else Work(o.world, o.proc, Answer(r.reply, newId, r.number))
  }

  /** What its call number k is answered. */
  function Said(t: Track, k: nat): Reaction { t.reactions(t.start + k) }

  /** Where its first n calls bring it. */
  function Played(t: Track, n: nat): Outcome {
    if n == 0 then t.from else React(Played(t, n - 1), Said(t, n - 1), t.newId)
  }

  /** What it hears in its first n calls, or until it is done. */
  function LogOf(t: Track, n: nat): seq<Event> {
    if n == 0 then []
    else
      var o := Played(t, n - 1);
      LogOf(t, n - 1) + (if o.proc.Busy? then Heard(o.world, o.proc.pc, Said(t, n - 1), t.newId) else [])
  }

  /** The track of a whole job, with an ID that Docker has not handed out. */
  predicate OfJob(t: Track, w: World, job: Job) {
    && t.from == Begin(w, job) && t.newId.name == job.target && t.newId !in w.made
    && KeyedRows(w)
  }

  /** Each row carries its own ID. */
  predicate KeyedRows(w: World) { forall c :: c in w.rows ==> w.rows[c].id == c }

  /** Up to the creation nothing but the job row has moved. */
  predicate Before(t: Track, o: Outcome, job: Job) {
    o.proc.Busy? && (o.proc.pc.Mark? || o.proc.pc.Fetch? || o.proc.pc.Mkdir? || o.proc.pc.DockerCreate?) ==>
      && o.world.made == t.from.world.made && o.world.rows == t.from.world.rows && o.proc.job.target == job.target
      && (o.proc.pc.Mkdir? || o.proc.pc.DockerCreate? ==> o.proc.pc.c.id == job.target)
  }

  lemma BeforeReact(t: Track, o: Outcome, w: World, job: Job, r: Reaction)
    requires OfJob(t, w, job) && Before(t, o, job)
    ensures Before(t, React(o, r, t.newId), job)
  {
  }

  lemma KeyedReact(o: Outcome, r: Reaction, newId: DockerId)
    requires KeyedRows(o.world)
    ensures KeyedRows(React(o, r, newId).world)
  {
  }

  lemma LeadsReact(t: Track, log: seq<Event>, o: Outcome, r: Reaction)
    requires Leads(t.from, log, o) && o.proc.Busy?
    requires o.proc.pc.DockerCreate? ==> t.newId.name == o.proc.pc.c.id && t.newId !in o.world.made
    ensures Leads(t.from, log + Heard(o.world, o.proc.pc, r, t.newId), React(o, r, t.newId))
  {
    var heard, pc := Heard(o.world, o.proc.pc, r, t.newId), o.proc.pc;
    var last := heard[|heard| - 1];
    if pc.WaitExit? && r.reply.TookEffect() && pc.d in o.world.docker {
      LeadsOn(t.from, log, o, Stops(pc.d));
      LeadsOn(t.from, log + [Stops(pc.d)], Meet(o, Stops(pc.d)), last);
      assert log + [Stops(pc.d)] + [last] == log + heard;
    } else {
      LeadsOn(t.from, log, o, last);
      assert heard == [last];
    }
  }

  lemma {:induction false} PlayedKeyed(t: Track, n: nat)
    requires KeyedRows(t.from.world)
    ensures KeyedRows(Played(t, n).world)
    decreases n
  {
    if n > 0 {
      PlayedKeyed(t, n - 1);
      KeyedReact(Played(t, n - 1), Said(t, n - 1), t.newId);
    }
  }

  /** Playing is a legal path of the step machine. */
  lemma {:induction false} PlayedLeads(t: Track, n: nat, w: World, job: Job)
    requires OfJob(t, w, job)
    ensures Leads(t.from, LogOf(t, n), Played(t, n)) && Before(t, Played(t, n), job)
    decreases n
  {
    if n > 0 {
      PlayedLeads(t, n - 1, w, job);
      var log, o, r := LogOf(t, n - 1), Played(t, n - 1), Said(t, n - 1);
      BeforeReact(t, o, w, job, r);
      if o.proc.Busy? { LeadsReact(t, log, o, r); } else { assert LogOf(t, n) == log; }
    }
  }

  /** A created container has been started, and its row copy carries its ID. */
  ghost function PcWaitExit(c: Container, d: DockerId): Pc { Pc.WaitExit(c.(dockerId := Some(d)), d) }

  lemma Overwritten(docker: map<DockerId, bool>, d: DockerId)
    requires d !in docker
    ensures docker[d := false] - {d} == docker && docker[d := false][d := true] == docker[d := true]
  {
  }

  /** The Docker daemon behind its client: it never hands out an ID twice. */
  class ContainerRuntime {
    const env: Environment
    var docker: map<DockerId, bool>
    var made: set<DockerId>
    var next: nat

    ghost predicate Valid()
      reads this
    {
      docker.Keys <= made && forall d :: d in made ==> d.serial < next
    }

    constructor (env: Environment)
      ensures this.env == env && Valid() && docker == map[] && made == {}
    {
      this.env := env;
      docker, made, next := map[], {}, 0;
    }

    method ContainerCreate(c: ContainerId) returns (id: Option<DockerId>)
      requires Valid()
      modifies this, env
      ensures Valid() && env.asked == old(env.asked) + 1
      ensures var taken, reply, newId := (exists d :: d in old(docker) && d.name == c), old(env.Next(0)), DockerId(c, old(next));
        && newId !in old(made)
        && id == (if !taken && reply.Done? then Some(newId) else None)
        && docker == (if !taken && reply.TookEffect() then old(docker)[newId := false] else old(docker))
        && made == (if !taken && reply.TookEffect() then old(made) + {newId} else old(made))
    {
      var r := env.Ask();
      id := None;
      var taken := exists d :: d in docker && d.name == c;
      if !taken && r.reply.TookEffect() {
        var newId := DockerId(c, next);
        docker, made, next := docker[newId := false], made + {newId}, next + 1;
        if r.reply.Done? { id := Some(newId); }
      }
    }

    /** A start that reports an error may have taken effect. */
    method ContainerStart(d: DockerId) returns (ok: bool, notFound: bool)
      requires Valid()
      modifies this, env
      ensures Valid() && made == old(made) && next == old(next) && env.asked == old(env.asked) + 1
      ensures ok <==> old(env.Next(0)).Done? && d in old(docker)
      ensures notFound <==> old(env.Next(0)).Done? && d !in old(docker)
      ensures docker == if d in old(docker) && old(env.Next(0)).TookEffect() then old(docker)[d := true] else old(docker)
    {
      var r := env.Ask();
      notFound := r.reply.Done? && d !in docker;
      ok := r.reply.Done? && !notFound;
      if d in docker && r.reply.TookEffect() { docker := docker[d := true]; }
    }

    /** Also tells when the call returned. */
    method ContainerStop(d: DockerId) returns (ok: bool, now: Time)
      requires Valid()
      modifies this, env
      ensures Valid() && made == old(made) && env.asked == old(env.asked) + 1
      ensures ok <==> d in old(docker) && old(env.Next(0)).Done?
      ensures docker == if d in old(docker) && old(env.Next(0)).TookEffect() then old(docker)[d := false] else old(docker)
      ensures now == env.reactions(old(env.asked)).number
    {
      var r := env.Ask();
      now := r.number;
      ok := d in docker && r.reply.Done?;
      if d in docker && r.reply.TookEffect() { docker := docker[d := false]; }
    }

    /** Forced removal: a running container is removed as well. Only an answer can say that there is no
        such container; a daemon that cannot be reached says nothing. */
    method ContainerRemove(d: DockerId) returns (ok: bool, notFound: bool)
      requires Valid()
      modifies this, env
      ensures Valid() && made == old(made) && env.asked == old(env.asked) + 1
      ensures ok <==> old(env.Next(0)).Done? && d in old(docker)
      ensures notFound <==> old(env.Next(0)).Done? && d !in old(docker)
      ensures docker == if old(env.Next(0)).TookEffect() then old(docker) - {d} else old(docker)
    {
      var r := env.Ask();
      notFound := r.reply.Done? && d !in docker;
      ok := r.reply.Done? && !notFound;
      if r.reply.TookEffect() { docker := docker - {d}; }
    }

    /** Waits for the container to stop by itself, for a while. It may stop and the wait not tell. */
    method WaitExit(d: DockerId) returns (exited: bool, now: Time)
      requires Valid()
      modifies this, env
      ensures Valid() && made == old(made) && env.asked == old(env.asked) + 1
      ensures docker == if d in old(docker) && old(env.Next(0)).TookEffect() then old(docker)[d := false] else old(docker)
      ensures exited <==> d in docker && old(env.Next(0)).Done?
      ensures exited ==> !docker[d]
      ensures now == env.reactions(old(env.asked)).number
    {
      var r := env.Ask();
      now := r.number;
      if d in docker && r.reply.TookEffect() { docker := docker[d := false]; }
      exited := d in docker && r.reply.Done?;
    }

    method InspectState(d: DockerId) returns (running: Option<bool>, now: Time)
      modifies env
      ensures env.asked == old(env.asked) + 1
      ensures running == if old(env.Next(0)).Done? && d in docker then Some(docker[d]) else None
      ensures now == env.reactions(old(env.asked)).number
    {
      var r := env.Ask();
      now := r.number;
      running := if r.reply.Done? && d in docker then Some(docker[d]) else None;
    }
  }

  class Worker {
    const env: Environment
    const jobRepo: JobRepository
    const containerRepo: ContainerRepository
    const runtime: ContainerRuntime

    constructor (jobRepo: JobRepository, containerRepo: ContainerRepository, runtime: ContainerRuntime)
      requires jobRepo.env == containerRepo.env == runtime.env
      ensures this.jobRepo == jobRepo && this.containerRepo == containerRepo && this.runtime == runtime && Wired()
    {
      this.env, this.jobRepo, this.containerRepo, this.runtime := jobRepo.env, jobRepo, containerRepo, runtime;
    }

    /** All of them live in one environment. */
    ghost predicate Wired() { jobRepo.env == env && containerRepo.env == env && runtime.env == env }

    ghost function Outside(): World
      reads jobRepo, containerRepo, runtime
    {
      World(containerRepo.rows, jobRepo.jobs, runtime.docker, runtime.made)
    }

    /** The path of the step machine under the environment's answers so far has come to where this worker
        is: in state p, with the tables and Docker as they are. */
    ghost predicate Reached(t: Track, p: Proc)
      reads jobRepo, containerRepo, runtime, env
    {
      && Wired() && runtime.Valid() && t.reactions == env.reactions && t.start <= env.asked
      && Played(t, env.asked - t.start) == Outcome(Outside(), p)
    }

    /** Up to three tries; the last error is the result. */
    method RetryUpdate(c: Container, ghost t: Track, ghost p: Proc) returns (error: Option<Cause>)
      requires p.Busy? && p.pc == WriteRow(c, 0) && Reached(t, p)
      modifies containerRepo, env
      ensures Reached(t, p.(pc := Finish(error)))
    {
      error := None;
      for i := 0 to UPDATE_RETRIES
        invariant i < UPDATE_RETRIES ==> Reached(t, p.(pc := WriteRow(c, i)))
        invariant i == UPDATE_RETRIES ==> Reached(t, p.(pc := Finish(Some(DatabaseError))))
        invariant i > 0 ==> error == Some(DatabaseError)
      {
        var ok := UpdateOnce(c, i, t, p.(pc := WriteRow(c, i)));
        if ok { return None; }
        error := Some(DatabaseError);
      }
    }

    method UpdateOnce(c: Container, ghost i: nat, ghost t: Track, ghost p: Proc) returns (ok: bool)
      requires p.Busy? && p.pc == WriteRow(c, i) && Reached(t, p)
      modifies containerRepo, env
      ensures Reached(t, p.(pc := if ok then Finish(None) else if i + 1 < UPDATE_RETRIES then WriteRow(c, i + 1) else Finish(Some(DatabaseError))))
    {
      ok := containerRepo.Update(c);
    }

    method DeleteOnce(c: ContainerId, ghost i: nat, ghost t: Track, ghost p: Proc) returns (ok: bool)
      requires p.Busy? && p.pc == DropRow(i) && p.job.target == c && Reached(t, p)
      modifies containerRepo, env
      ensures Reached(t, p.(pc := if ok then Finish(None) else if i + 1 < UPDATE_RETRIES then DropRow(i + 1) else Finish(Some(DatabaseError))))
    {
      ok := containerRepo.Delete(c);
    }

    method RetryDelete(c: ContainerId, ghost t: Track, ghost p: Proc) returns (error: Option<Cause>)
      requires p.Busy? && p.pc == DropRow(0) && p.job.target == c && Reached(t, p)
      modifies containerRepo, env
      ensures Reached(t, p.(pc := Finish(error)))
    {
      error := None;
      for i := 0 to UPDATE_RETRIES
        invariant i < UPDATE_RETRIES ==> Reached(t, p.(pc := DropRow(i)))
        invariant i == UPDATE_RETRIES ==> Reached(t, p.(pc := Finish(Some(DatabaseError))))
        invariant i > 0 ==> error == Some(DatabaseError)
      {
        var ok := DeleteOnce(c, i, t, p.(pc := DropRow(i)));
        if ok { return None; }
        error := Some(DatabaseError);
      }
    }

    /** Waits briefly, then inspects; a failed inspection counts as running. Also reads the clock. */
    method SyncContainerState(d: DockerId, ghost t: Track, ghost p: Proc) returns (status: ContainerStatus, now: Time)
      requires p.Busy? && p.pc.WaitExit? && p.pc.d == d && Reached(t, p)
      modifies runtime, env
      ensures Reached(t, p.(pc := WriteRow(p.pc.c.(status := status, updatedAt := now), 0)))
      ensures runtime.docker == if d in old(runtime.docker) && old(env.Next(0)).TookEffect()
                                then old(runtime.docker)[d := false] else old(runtime.docker)
      ensures status == Exited <==> d in runtime.docker && !runtime.docker[d] && (old(env.Next(0)).Done? || old(env.Next(1)).Done?)
      ensures status == Exited || status == Running
    {
      var exited;
      exited, now := WaitOnce(d, t, p);
      if exited { return Exited, now; }
      status, now := InspectOnce(d, t, p.(pc := Pc.Inspect(p.pc.c, d)));
    }

    method WaitOnce(d: DockerId, ghost t: Track, ghost p: Proc) returns (exited: bool, now: Time)
      requires p.Busy? && p.pc.WaitExit? && p.pc.d == d && Reached(t, p)
      modifies runtime, env
      ensures Reached(t, p.(pc := if exited then WriteRow(p.pc.c.(status := Exited, updatedAt := now), 0) else Pc.Inspect(p.pc.c, d)))
      ensures env.asked == old(env.asked) + 1
      ensures runtime.docker == if d in old(runtime.docker) && old(env.Next(0)).TookEffect()
                                then old(runtime.docker)[d := false] else old(runtime.docker)
      ensures exited <==> d in runtime.docker && old(env.Next(0)).Done?
    {
      exited, now := runtime.WaitExit(d);
    }

    method InspectOnce(d: DockerId, ghost t: Track, ghost p: Proc) returns (status: ContainerStatus, now: Time)
      requires p.Busy? && p.pc.Inspect? && p.pc.d == d && Reached(t, p)
      modifies env
      ensures Reached(t, p.(pc := WriteRow(p.pc.c.(status := status, updatedAt := now), 0)))
      ensures status == Exited <==> old(env.Next(0)).Done? && d in runtime.docker && !runtime.docker[d]
      ensures status == Exited || status == Running
    {
      var running;
      running, now := runtime.InspectState(d);
      status := if running == Some(false) then Exited else Running;
    }

    /** The row of the job's container, or why there is none. */
    method FindTarget(job: Job, ghost t: Track, ghost p: Proc) returns (found: Option<Container>, error: Option<Cause>)
      requires p.Busy? && p.pc == Fetch && p.job == job && Reached(t, p)
      modifies env
      ensures found.Some? ==>
                && job.target in containerRepo.rows && found.value == containerRepo.rows[job.target]
                && Reached(t, p.(pc := Dispatch(job.kind, found.value)))
      ensures found.None? ==> error.Some? && Reached(t, p.(pc := Finish(error)))
      ensures found.Some? <==> old(env.Next(0)).Done? && job.target in containerRepo.rows
      ensures env.asked == old(env.asked) + 1
    {
      var reply;
      found, reply := containerRepo.FindByID(job.target);
      error := if reply.Done? then Some(RowNotFound) else Some(DatabaseError);
    }

    /** Creates the Docker container under the row's name and starts it; if the start fails it is removed
        again, as far as Docker lets it: then Docker is as before. */
    method CreateAndStart(c: Container, ghost t: Track, ghost p: Proc) returns (id: Option<DockerId>)
      requires p.Busy? && p.pc == DockerCreate(c) && Reached(t, p) && t.newId == DockerId(c.id, runtime.next)
      modifies runtime, env
      ensures id.Some? ==> Reached(t, p.(pc := PcWaitExit(c, id.value)))
      ensures id.None? ==> Reached(t, p.(pc := Finish(Some(RuntimeError))))
      ensures var taken, d := (exists e :: e in old(runtime.docker) && e.name == c.id), DockerId(c.id, old(runtime.next));
        var made, started, cleared := old(env.Next(0)), old(env.Next(1)), old(env.Next(2));
        if taken || made.Refused? then id == None && runtime.docker == old(runtime.docker)
        else if made.Lost? then id == None && runtime.docker == old(runtime.docker)[d := false]
        else if started.Done? then id == Some(d) && runtime.docker == old(runtime.docker)[d := true]
        else if cleared.TookEffect() then id == None && runtime.docker == old(runtime.docker)
        else id == None && runtime.docker == old(runtime.docker)[d := started.Lost?]
    {
      id := CreateOnce(c, t, p);
      if id.None? { return; }
      ghost var docker, d := old(runtime.docker), id.value;
      Overwritten(docker, d);
      assert runtime.docker == docker[d := false];
      assert env.Next(0) == old(env.Next(1)) && env.Next(1) == old(env.Next(2));
      id := FirstStart(c, id.value, t, p.(pc := Pc.FirstStart(c, id.value)));
    }

    function AfterStart(docker: map<DockerId, bool>, d: DockerId, reply: Reply): map<DockerId, bool> {
      if d in docker && reply.TookEffect() then docker[d := true] else docker
    }

    method FirstStart(c: Container, d: DockerId, ghost t: Track, ghost p: Proc) returns (id: Option<DockerId>)
      requires p.Busy? && p.pc == Pc.FirstStart(c, d) && Reached(t, p)
      modifies runtime, env
      ensures id.Some? ==> Reached(t, p.(pc := PcWaitExit(c, id.value)))
      ensures id.None? ==> Reached(t, p.(pc := Finish(Some(RuntimeError))))
      ensures id == if old(env.Next(0)).Done? && d in old(runtime.docker) then Some(d) else None
      ensures id.Some? ==> runtime.docker == old(runtime.docker)[d := true]
      ensures id.None? ==> runtime.docker == if old(env.Next(1)).TookEffect() then old(runtime.docker) - {d}
                                             else AfterStart(old(runtime.docker), d, old(env.Next(0)))
    {
      var ok := StartOnce(c, d, t, p);
      if ok { return Some(d); }
      id := None;
      CleanUp(d, t, p.(pc := Cleanup(d)));
    }

    method CreateOnce(c: Container, ghost t: Track, ghost p: Proc) returns (id: Option<DockerId>)
      requires p.Busy? && p.pc == DockerCreate(c) && Reached(t, p) && t.newId == DockerId(c.id, runtime.next)
      modifies runtime, env
      ensures Reached(t, p.(pc := if id.Some? then Pc.FirstStart(c, id.value) else Finish(Some(RuntimeError))))
      ensures var taken, d, made := (exists e :: e in old(runtime.docker) && e.name == c.id), DockerId(c.id, old(runtime.next)), old(env.Next(0));
        && id == (if !taken && made.Done? then Some(d) else None)
        && runtime.docker == (if !taken && made.TookEffect() then old(runtime.docker)[d := false] else old(runtime.docker))
        && d !in old(runtime.docker) && env.asked == old(env.asked) + 1
    {
      id := runtime.ContainerCreate(c.id);
    }

    method StartOnce(c: Container, d: DockerId, ghost t: Track, ghost p: Proc) returns (ok: bool)
      requires p.Busy? && p.pc == Pc.FirstStart(c, d) && Reached(t, p)
      modifies runtime, env
      ensures Reached(t, p.(pc := if ok then PcWaitExit(c, d) else Cleanup(d)))
      ensures ok <==> old(env.Next(0)).Done? && d in old(runtime.docker)
      ensures runtime.docker == AfterStart(old(runtime.docker), d, old(env.Next(0))) && env.asked == old(env.asked) + 1
      ensures runtime.docker - {d} == old(runtime.docker) - {d}
    {
      var notFound;
      ok, notFound := runtime.ContainerStart(d);
    }

    /** Its error is ignored. */
    method CleanUp(d: DockerId, ghost t: Track, ghost p: Proc)
      requires p.Busy? && p.pc == Cleanup(d) && Reached(t, p)
      modifies runtime, env
      ensures Reached(t, p.(pc := Finish(Some(RuntimeError))))
      ensures runtime.docker == if old(env.Next(0)).TookEffect() then old(runtime.docker) - {d} else old(runtime.docker)
    {
      var _, _ := runtime.ContainerRemove(d);
    }

    method MakeDir(c: Container, ghost t: Track, ghost p: Proc) returns (ok: bool)
      requires p.Busy? && p.pc == Mkdir(c) && Reached(t, p)
      modifies env
      ensures ok <==> old(env.Next(0)).Done?
      ensures Reached(t, p.(pc := if ok then DockerCreate(c) else Finish(Some(StorageError))))
    {
      var made := env.Ask();
      ok := made.reply.Done?;
    }

    method ProcessCreate(job: Job, ghost t: Track, ghost p: Proc) returns (error: Option<Cause>)
      requires p.Busy? && p.pc == Fetch && p.job == job && job.kind == CreateContainer && Reached(t, p)
      requires t.newId == DockerId(job.target, runtime.next) && (forall c :: c in containerRepo.rows ==> containerRepo.rows[c].id == c)
      modifies containerRepo, runtime, env
      ensures Reached(t, p.(pc := Finish(error)))
    {
      var found;
      found, error := FindTarget(job, t, p);
      if found.None? { return; }
      var c := found.value;
      var made := MakeDir(c, t, p.(pc := Mkdir(c)));
      if !made { return Some(StorageError); }
      var id := CreateAndStart(c, t, p.(pc := DockerCreate(c)));
      if id.None? { return Some(RuntimeError); }
      c := c.(dockerId := id);
      error := Settle(c, id.value, t, p.(pc := Pc.WaitExit(c, id.value)));
    }

    /** The end of a CREATE and of a START: observe the container and write its row. */
    method Settle(c: Container, d: DockerId, ghost t: Track, ghost p: Proc) returns (error: Option<Cause>)
      requires p.Busy? && p.pc == Pc.WaitExit(c, d) && Reached(t, p)
      modifies containerRepo, runtime, env
      ensures Reached(t, p.(pc := Finish(error)))
    {
      var status, now := SyncContainerState(d, t, p);
      var c' := c.(status := status, updatedAt := now);
      error := RetryUpdate(c', t, p.(pc := WriteRow(c', 0)));
    }

    method ProcessStart(job: Job, ghost t: Track, ghost p: Proc) returns (error: Option<Cause>)
      requires p.Busy? && p.pc == Fetch && p.job == job && job.kind == StartContainer && Reached(t, p)
      modifies containerRepo, runtime, env
      ensures Reached(t, p.(pc := Finish(error)))
    {
      var found;
      found, error := FindTarget(job, t, p);
      if found.None? { return; }
      var c := found.value;
      if c.dockerId.None? { return Some(NoDockerId); }
      var d := c.dockerId.value;
      error := StartCall(c, d, t, p.(pc := DockerStart(c, d)));
      if error.Some? { return; }
      error := Settle(c, d, t, p.(pc := Pc.WaitExit(c, d)));
    }

    method StartCall(c: Container, d: DockerId, ghost t: Track, ghost p: Proc) returns (error: Option<Cause>)
      requires p.Busy? && p.pc == DockerStart(c, d) && Reached(t, p)
      modifies runtime, env
      ensures Reached(t, p.(pc := if error.None? then Pc.WaitExit(c, d) else Finish(error)))
      ensures error == if !old(env.Next(0)).Done? then Some(RuntimeError) else if d !in old(runtime.docker) then Some(DockerNotFound) else None
    {
      var ok, notFound := runtime.ContainerStart(d);
      error := if ok then None else Some(if notFound then DockerNotFound else RuntimeError);
    }

    method StopCall(c: Container, d: DockerId, ghost t: Track, ghost p: Proc) returns (ok: bool, now: Time)
      requires p.Busy? && p.pc == DockerStop(c, d) && Reached(t, p)
      modifies runtime, env
      ensures Reached(t, p.(pc := if ok then WriteRow(c.(status := Exited, updatedAt := now), 0) else Finish(Some(RuntimeError))))
      ensures ok <==> old(env.Next(0)).Done? && d in old(runtime.docker)
    {
      ok, now := runtime.ContainerStop(d);
    }

    method ProcessStop(job: Job, ghost t: Track, ghost p: Proc) returns (error: Option<Cause>)
      requires p.Busy? && p.pc == Fetch && p.job == job && job.kind == StopContainer && Reached(t, p)
      modifies containerRepo, runtime, env
      ensures Reached(t, p.(pc := Finish(error)))
    {
      var found;
      found, error := FindTarget(job, t, p);
      if found.None? { return; }
      var c := found.value;
      if c.dockerId.None? { return Some(RuntimeError); }
      var d := c.dockerId.value;
      var ok, now := StopCall(c, d, t, p.(pc := DockerStop(c, d)));
      if !ok { return Some(RuntimeError); }
      c := c.(status := Exited, updatedAt := now);
      error := RetryUpdate(c, t, p.(pc := WriteRow(c, 0)));
    }

    method ProcessDelete(job: Job, ghost t: Track, ghost p: Proc) returns (error: Option<Cause>)
      requires p.Busy? && p.pc == Fetch && p.job == job && job.kind == DeleteContainer && Reached(t, p)
      modifies containerRepo, runtime, env
      ensures Reached(t, p.(pc := Finish(error)))
    {
      var found;
      found, error := FindTarget(job, t, p);
      if found.None? { return; }
      if found.value.dockerId.Some? {
        var d := found.value.dockerId.value;
        var ok, notFound := runtime.ContainerRemove(d);
        if !ok && !notFound { return Some(RuntimeError); }
      }
      error := RetryDelete(job.target, t, p.(pc := DropRow(0)));
    }

    /** The whole of a job under the environment's answers from here on. */
    ghost function TrackOf(job: Job): Track
      reads jobRepo, containerRepo, runtime, env
    {
      Track(Begin(Outside(), job), env.reactions, env.asked, DockerId(job.target, runtime.next))
    }

    /** Works one job off. The tables and Docker end where the step machine ends when it gets the answers
        that the calls got, one after the other and none left out, and its worker is idle again. */
    method Process(job: Job) returns (job': Job)
      requires Wired() && runtime.Valid() && KeyedRows(Outside())
      modifies jobRepo, containerRepo, runtime, env
      ensures Reached(old(TrackOf(job)), Idle)
      ensures job'.SameJob(job) && job'.Ended() && job'.completedAt.Some?
      ensures job'.status == JobFailed ==> job'.error.Some?
      ensures job'.status == JobSuccess ==> job'.error == job.error
      ensures var last := Played(old(TrackOf(job)), env.asked - old(env.asked) - 1).proc;
        last.Busy? && last.pc.Finish? && (job'.status == JobSuccess <==> last.pc.verdict.None?)
    {
      ghost var t := TrackOf(job);
      ghost var p := t.from.proc;
      job' := job.(status := JobRunning);
      var _ := jobRepo.Update(job');
      p := p.(job := job', pc := Fetch);
      var error;
      match job.kind {
        case CreateContainer => error := ProcessCreate(job', t, p);
        case StartContainer => error := ProcessStart(job', t, p);
        case StopContainer => error := ProcessStop(job', t, p);
        case DeleteContainer => error := ProcessDelete(job', t, p);
      }
      job' := Close(job', error, t, p.(pc := Finish(error)));
    }

    /** The final write. */
    method Close(job: Job, error: Option<Cause>, ghost t: Track, ghost p: Proc) returns (job': Job)
      requires p.Busy? && p.pc == Finish(error) && p.job == job && Reached(t, p)
      modifies jobRepo, env
      ensures Reached(t, Idle)
      ensures job'.SameJob(job) && job'.Ended() && job'.completedAt.Some? && job'.error == (if error.Some? then error else job.error)
      ensures job'.status == JobFailed <==> error.Some?
      ensures env.asked > t.start && Played(t, env.asked - t.start - 1).proc == p
    {
      var now := env.Clock();
      job' := job.(completedAt := Some(now));
      if error.Some? {
        job' := job'.(status := JobFailed, error := error);
      } else {
        job' := job'.(status := JobSuccess);
      }
      LastWrite(job', t, p);
    }

    method LastWrite(job: Job, ghost t: Track, ghost p: Proc)
      requires p.Busy? && p.pc.Finish? && Reached(t, p)
      requires job == Closed(p.job, p.pc.verdict, env.reactions(env.asked).number)
      modifies jobRepo, env
      ensures Reached(t, Idle) && env.asked > t.start && Played(t, env.asked - t.start - 1).proc == p
    {
      var _ := jobRepo.Update(job);
    }

    /** Takes the next job from the channel and works it off. */
    method WorkOne(jobChan: JobChannel) returns (ghost item: Item)
      requires Wired() && runtime.Valid() && jobChan.Valid() && KeyedRows(Outside()) && jobChan.items != []
      modifies jobRepo, containerRepo, runtime, jobChan, env
      ensures runtime.Valid() && jobChan.Valid() && KeyedRows(Outside())
      ensures item.RunJob? && [item.job] + jobChan.items == old(jobChan.items)
      ensures Playable(old(Outside()), item) && Outside() == Perform(old(Outside()), item)
    {
      var job := jobChan.Receive();
      ghost var t, w := TrackOf(job), Outside();
      assert OfJob(t, w, job);
      var _ := Process(job);
      ghost var n := env.asked - t.start;
      PlayedLeads(t, n, w, job);
      PlayedKeyed(t, n);
      item := RunJob(job, LogOf(t, n));
    }

    /** One worker left to itself takes jobs from the channel, in order, until it is told to quit after some
        of them or the channel is empty; the tables and Docker are then as after playing these jobs one by one. */
    method Run(jobChan: JobChannel, rounds: nat) returns (ghost played: seq<Item>)
      requires Wired() && runtime.Valid() && jobChan.Valid() && KeyedRows(Outside())
      modifies jobRepo, containerRepo, runtime, jobChan, env
      ensures |played| == if rounds < |old(jobChan.items)| then rounds else |old(jobChan.items)|
      ensures jobChan.items == old(jobChan.items)[|played|..]
      ensures forall k :: 0 <= k < |played| ==> played[k].RunJob? && played[k].job == old(jobChan.items)[k]
      ensures AllPlayable(old(Outside()), played) && Outside() == PerformAll(old(Outside()), played)
    {
      played := [];
      var worked := 0;
      while worked < rounds && jobChan.items != []
        invariant Wired() && runtime.Valid() && jobChan.Valid() && KeyedRows(Outside())
        invariant |played| == worked <= |old(jobChan.items)| && worked <= rounds && jobChan.items == old(jobChan.items)[|played|..]
        invariant forall k :: 0 <= k < |played| ==> played[k].RunJob? && played[k].job == old(jobChan.items)[k]
        invariant AllPlayable(old(Outside()), played) && Outside() == PerformAll(old(Outside()), played)
        decreases |jobChan.items|
      {
        ghost var item := WorkOne(jobChan);
        PerformMore(old(Outside()), played, item);
        played := played + [item];
        worked := worked + 1;
      }
    }
  }
}
