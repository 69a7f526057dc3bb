/** One worker's treatment of one job, cut at every point where another goroutine can
    run: between any two statements or Docker requests. */
module WorkerSteps {
  import opened Domain
  import opened Store

  /** Where a worker is in `process`, with the local variables that are still live. */
  datatype Pc =
    | Mark
    | Fetch
    | Mkdir(c: Container)
    | DockerCreate(c: Container)
    | FirstStart(c: Container, d: DockerId)
    | Cleanup(d: DockerId)
    | DockerStart(c: Container, d: DockerId)
    | WaitExit(c: Container, d: DockerId)
    | Inspect(c: Container, d: DockerId)
    | DockerStop(c: Container, d: DockerId)
    | DockerRemove(d: DockerId)
    | WriteRow(c: Container, tries: nat)
    | DropRow(tries: nat)
    | Finish(verdict: Option<Cause>)

  /** `before` is a history variable: the container row at the moment the job was taken. */
  datatype Proc = Idle | Busy(job: Job, pc: Pc, before: Option<Container>)

  /** The answer to the call a worker is waiting on. `newId` is the ID Docker hands out
      if the call creates a container, `now` the clock when the call returns. */
  datatype Answer = Answer(reply: Reply, newId: DockerId, now: Time)

  /** What the environment may answer: new IDs are fresh and carry the requested name, and
      a wait that reports an exit found the container not running. */
  predicate Allowed(w: World, pc: Pc, a: Answer) {
    match pc
    case DockerCreate(c) => a.newId.name == c.id && a.newId !in w.made
    case WaitExit(_, d) => a.reply.Done? ==> !IsRunning(w, d)
    case _ => true
  }

  datatype Outcome = Outcome(world: World, proc: Proc)

  function At(w: World, p: Proc, pc: Pc): Outcome
    requires p.Busy?
  {
    Outcome(w, p.(pc := pc))
  }

  function Fail(w: World, p: Proc, cause: Cause): Outcome
    requires p.Busy?
  {
    At(w, p, Finish(Some(cause)))
  }

  /** Where a job of each kind goes once its container row has been read. */
  function Dispatch(kind: JobKind, c: Container): Pc {
    match (kind, c.dockerId)
    case (CreateContainer, _) => Mkdir(c)
    case (StartContainer, None) => Finish(Some(NoDockerId))
    case (StartContainer, Some(d)) => DockerStart(c, d)
    case (StopContainer, None) => Finish(Some(RuntimeError))
    case (StopContainer, Some(d)) => DockerStop(c, d)
    case (DeleteContainer, None) => DropRow(0)
    case (DeleteContainer, Some(d)) => DockerRemove(d)
  }

  /** After the tries-th write of a retry loop: done, once more, or given up. */
  function AfterWrite(confirmed: bool, tries: nat, again: Pc): Pc {
    if confirmed then Finish(None)
    else if tries + 1 < UPDATE_RETRIES then again
    else Finish(Some(DatabaseError))
  }

  function ObservedStatus(w: World, d: DockerId, reply: Reply): ContainerStatus {
    if reply.Done? && d in w.docker && !w.docker[d] then Exited else Running
  }

  function Closed(job: Job, verdict: Option<Cause>, now: Time): Job {
    job.(status := if verdict.None? then JobSuccess else JobFailed,
         error := if verdict.None? then job.error else verdict,
         completedAt := Some(now))
  }

  /** The step a busy worker takes when the call it waits on is answered. */
  function Work(w: World, p: Proc, a: Answer): Outcome
    requires p.Busy?
  {
    var job := p.job;
    match p.pc
    case Mark =>
      var job' := job.(status := JobRunning);
      Outcome(UpdateJob(w, job', a.reply), p.(job := job', pc := Fetch))
    case Fetch =>
      if !a.reply.Done? then Fail(w, p, DatabaseError)
      else if job.target !in w.rows then Fail(w, p, RowNotFound)
      else At(w, p, Dispatch(job.kind, w.rows[job.target]))
    case Mkdir(c) =>
      if a.reply.Done? then At(w, p, DockerCreate(c)) else Fail(w, p, StorageError)
    case DockerCreate(c) =>
      if NameTaken(w, c.id) || a.reply.Refused? then Fail(w, p, RuntimeError)
      else if a.reply.Done? then At(Provide(w, a.newId), p, FirstStart(c, a.newId))
      else Fail(Provide(w, a.newId), p, RuntimeError)
    case FirstStart(c, d) =>
      if a.reply.Done? && d in w.docker then At(Launch(w, d), p, WaitExit(c.(dockerId := Some(d)), d))
      else At(if a.reply.Lost? then Launch(w, d) else w, p, Cleanup(d))
    case Cleanup(d) =>
      Fail(if a.reply.TookEffect() then Discard(w, d) else w, p, RuntimeError)
    case DockerStart(c, d) =>
      if !a.reply.Done? then Fail(if a.reply.Lost? then Launch(w, d) else w, p, RuntimeError)
      else if d in w.docker then At(Launch(w, d), p, WaitExit(c, d))
      else Fail(w, p, DockerNotFound)
    case WaitExit(c, d) =>
      if a.reply.Done? then At(w, p, WriteRow(c.(status := Exited, updatedAt := a.now), 0))
      else At(w, p, Inspect(c, d))
    case Inspect(c, d) =>
      At(w, p, WriteRow(c.(status := ObservedStatus(w, d, a.reply), updatedAt := a.now), 0))
    case DockerStop(c, d) =>
      if d !in w.docker || a.reply.Refused? then Fail(w, p, RuntimeError)
      else if a.reply.Done? then At(Halt(w, d), p, WriteRow(c.(status := Exited, updatedAt := a.now), 0))
      else Fail(Halt(w, d), p, RuntimeError)
    case DockerRemove(d) =>
      // A container that is not there is answered "not found", which is as good as removed.
      if a.reply.Done? then At(Discard(w, d), p, DropRow(0))
      else Fail(if a.reply.Lost? then Discard(w, d) else w, p, RuntimeError)
    case WriteRow(c, k) =>
      At(UpdateRow(w, c, a.reply), p, AfterWrite(Confirmed(w, c.id, a.reply), k, WriteRow(c, k + 1)))
    case DropRow(k) =>
      At(DeleteRow(w, job.target, a.reply), p, AfterWrite(Confirmed(w, job.target, a.reply), k, DropRow(k + 1)))
    case Finish(verdict) =>
      Outcome(UpdateJob(w, Closed(job, verdict, a.now), a.reply), Idle)
  }

  /** A step writes the job row only when it marks the job RUNNING or closes it. */
  lemma WorkOnJobs(w: World, p: Proc, a: Answer)
    requires p.Busy?
    ensures var o := Work(w, p, a);
      && o.world.jobs.Keys == w.jobs.Keys
      && (forall j :: j in w.jobs && j != p.job.id ==> o.world.jobs[j] == w.jobs[j])
      && (p.job.id in w.jobs ==> w.jobs[p.job.id].SameJob(o.world.jobs[p.job.id]))
      && (p.job.id in w.jobs && !(a.reply.TookEffect() && (p.pc.Mark? || p.pc.Finish?)) ==>
            o.world.jobs[p.job.id] == w.jobs[p.job.id])
      && (p.job.id in w.jobs && a.reply.TookEffect() && p.pc.Mark? ==>
            o.world.jobs[p.job.id] == w.jobs[p.job.id].(status := JobRunning, error := p.job.error, completedAt := p.job.completedAt))
      && (p.job.id in w.jobs && a.reply.TookEffect() && p.pc.Finish? ==>
            o.world.jobs[p.job.id] == w.jobs[p.job.id].(
              status := if p.pc.verdict.None? then JobSuccess else JobFailed,
              error := if p.pc.verdict.None? then p.job.error else p.pc.verdict,
              completedAt := Some(a.now)))
  {
  }

  lemma WorkOnProc(w: World, p: Proc, a: Answer)
    requires p.Busy?
    ensures var p' := Work(w, p, a).proc;
      && (p'.Idle? <==> p.pc.Finish?)
      && (p'.Busy? ==> p'.job.SameJob(p.job) && p'.job.error == p.job.error && p'.job.completedAt == p.job.completedAt
                       && p'.before == p.before && !p'.pc.Mark?
                       && p'.pc != Finish(Some(Interrupted)))
  {
  }

  /** The container rows it can write are its target's, and never the owner. */
  lemma WorkOnRows(w: World, p: Proc, a: Answer)
    requires p.Busy?
    ensures var rows' := Work(w, p, a).world.rows;
      && (forall c :: c in rows' ==> c in w.rows && w.rows[c].owner == rows'[c].owner && w.rows[c].createdAt == rows'[c].createdAt)
      && (!p.pc.WriteRow? && !p.pc.DropRow? ==> rows' == w.rows)
      && (forall c :: c in w.rows && !(p.pc.WriteRow? && c == p.pc.c.id) && !(p.pc.DropRow? && c == p.job.target) ==>
            c in rows' && rows'[c] == w.rows[c])
  {
  }

  // ---------- one job, run alone ----------

  /** What a job meets while it runs: answers to its own calls, and its Docker container stopping. */
  datatype Event = Reply(a: Answer) | Stops(d: DockerId)

  function Begin(w: World, job: Job): Outcome { Outcome(w, Busy(job, Mark, RowOf(w, job.target))) }

  function Meet(o: Outcome, e: Event): Outcome {
    match e
    case Reply(a) => if o.proc.Busy? then Work(o.world, o.proc, a) else o
    case Stops(d) => Outcome(Halt(o.world, d), o.proc)
  }

  function Replay(o: Outcome, log: seq<Event>): Outcome {
    if log == [] then o else Meet(Replay(o, log[..|log| - 1]), log[|log| - 1])
  }

  predicate CanMeet(o: Outcome, e: Event) {
    match e
    case Reply(a) => o.proc.Busy? && Allowed(o.world, o.proc.pc, a)
    case Stops(d) => d in o.world.docker
  }

  /** The environment kept its contract all along: it answered only pending calls, as it may, and
      stopped only Docker containers there are. */
  predicate Legal(o: Outcome, log: seq<Event>) {
    log != [] ==>
      && Legal(o, log[..|log| - 1])
      && CanMeet(Replay(o, log[..|log| - 1]), log[|log| - 1])
  }

  lemma LastEvent(o: Outcome, log: seq<Event>, e: Event)
    ensures Replay(o, log + [e]) == Meet(Replay(o, log), e)
    ensures Legal(o, log + [e]) <==> Legal(o, log) && CanMeet(Replay(o, log), e)
  {
    assert (log + [e])[..|log|] == log;
  }

  /** The log is legal and brings o to r. */
  predicate Leads(o: Outcome, log: seq<Event>, r: Outcome) { Legal(o, log) && Replay(o, log) == r }

  lemma LeadsOn(o: Outcome, log: seq<Event>, r: Outcome, e: Event)
    requires Leads(o, log, r) && CanMeet(r, e)
    ensures Leads(o, log + [e], Meet(r, e))
  {
    LastEvent(o, log, e);
  }

  lemma {:induction false} ReplayAppend(o: Outcome, log: seq<Event>, more: seq<Event>)
    ensures Replay(o, log + more) == Replay(Replay(o, log), more)
    ensures Legal(o, log + more) <==> Legal(o, log) && Legal(Replay(o, log), more)
    decreases |more|
  {
    if more == [] {
      assert log + more == log;
    } else {
      var init, last := more[..|more| - 1], more[|more| - 1];
      ReplayAppend(o, log, init);
      assert log + more == (log + init) + [last] && more == init + [last];
      LastEvent(o, log + init, last);
      LastEvent(Replay(o, log), init, last);
    }
  }

  function Answers(log: seq<Answer>): seq<Event> { seq(|log|, k requires 0 <= k < |log| => Reply(log[k])) }
}
