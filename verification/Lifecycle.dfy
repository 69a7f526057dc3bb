/** What holds of container rows and Docker containers over all runs, and how a step can
    change a container row or a job row. */
module Lifecycle {
  import opened Domain
  import opened Store
  import opened WorkerSteps
  import opened Protocol
  import opened Invariant

  predicate IdOf(made: set<DockerId>, c: ContainerId, d: DockerId) { d.name == c && d in made }

  /** A row (or a worker's copy of it) says Created exactly while it has no Docker ID, and it
      never says Dead; its Docker ID is one Docker made for this very container. */
  predicate RowOk(made: set<DockerId>, c: ContainerId, row: Container) {
    && row.id == c && row.status != Dead && (row.status == Created <==> row.dockerId.None?)
    && (row.dockerId.Some? ==> IdOf(made, c, row.dockerId.value))
  }

  predicate PcOk(made: set<DockerId>, job: Job, pc: Pc) {
    var t := job.target;
    match pc
    case Mark => true
    case Fetch => true
    case Mkdir(c) => job.kind == CreateContainer && RowOk(made, t, c)
    case DockerCreate(c) => job.kind == CreateContainer && RowOk(made, t, c)
    case FirstStart(c, d) => job.kind == CreateContainer && RowOk(made, t, c) && IdOf(made, t, d)
    case Cleanup(d) => job.kind == CreateContainer && IdOf(made, t, d)
    case DockerStart(c, d) => job.kind == StartContainer && RowOk(made, t, c) && c.dockerId == Some(d)
    case WaitExit(c, d) =>
      (job.kind == CreateContainer || job.kind == StartContainer) && c.id == t && c.dockerId == Some(d) && IdOf(made, t, d)
    case Inspect(c, d) =>
      (job.kind == CreateContainer || job.kind == StartContainer) && c.id == t && c.dockerId == Some(d) && IdOf(made, t, d)
    case DockerStop(c, d) => job.kind == StopContainer && RowOk(made, t, c) && c.dockerId == Some(d)
    case DockerRemove(d) => job.kind == DeleteContainer && IdOf(made, t, d)
    case WriteRow(c, k) => job.kind != DeleteContainer && RowOk(made, t, c) && c.dockerId.Some? && k < UPDATE_RETRIES
    case DropRow(k) => job.kind == DeleteContainer && k < UPDATE_RETRIES
    case Finish(_) => true
  }

  predicate ProcOk(made: set<DockerId>, p: Proc) { p.Busy? ==> PcOk(made, p.job, p.pc) }

  /** Docker holds only containers it made, at most one of each name. */
  predicate DockerOk(w: World) {
    && (forall d :: d in w.docker ==> d in w.made)
    && (forall d, e :: d in w.docker && e in w.docker && d.name == e.name ==> d == e)
  }

  predicate WorldOk(w: World) {
    DockerOk(w) && forall c :: c in w.rows ==> RowOk(w.made, c, w.rows[c])
  }

  predicate Life(s: Sys) {
    WorldOk(s.w) && forall i :: 0 <= i < |s.workers| ==> ProcOk(s.w.made, s.workers[i])
  }

  lemma WorkDocker(w: World, p: Proc, a: Answer)
    requires DockerOk(w) && p.Busy? && ProcOk(w.made, p) && Allowed(w, p.pc, a)
    ensures var o := Work(w, p, a); DockerOk(o.world) && w.made <= o.world.made
  {
  }

  predicate Drives(pc: Pc) { pc.DockerCreate? || pc.FirstStart? || pc.Cleanup? || pc.DockerStart? || pc.DockerStop? || pc.DockerRemove? }

  lemma WorkProcReads(w: World, p: Proc, a: Answer)
    requires WorldOk(w) && p.Busy? && ProcOk(w.made, p) && !Drives(p.pc)
    ensures var o := Work(w, p, a); o.world.made == w.made && ProcOk(w.made, o.proc)
  {
    if p.pc.Fetch? { WorkProcFetch(w, p, a); }
  }

  lemma WorkProcFetch(w: World, p: Proc, a: Answer)
    requires WorldOk(w) && p.Busy? && p.pc.Fetch?
    ensures ProcOk(w.made, Work(w, p, a).proc)
  {
    assert p.job.target in w.rows ==> RowOk(w.made, p.job.target, w.rows[p.job.target]);
  }

  lemma WorkProcDrives(w: World, p: Proc, a: Answer)
    requires WorldOk(w) && p.Busy? && ProcOk(w.made, p) && Allowed(w, p.pc, a) && Drives(p.pc)
    ensures var o := Work(w, p, a); ProcOk(o.world.made, o.proc)
  {
  }

  lemma WorkProc(w: World, p: Proc, a: Answer)
    requires WorldOk(w) && p.Busy? && ProcOk(w.made, p) && Allowed(w, p.pc, a)
    ensures var o := Work(w, p, a); ProcOk(o.world.made, o.proc)
  {
    if Drives(p.pc) { WorkProcDrives(w, p, a); } else { WorkProcReads(w, p, a); }
  }

  lemma WorkWorld(w: World, p: Proc, a: Answer)
    requires WorldOk(w) && p.Busy? && ProcOk(w.made, p) && Allowed(w, p.pc, a)
    ensures WorldOk(Work(w, p, a).world)
  {
    WorkDocker(w, p, a);
    WorkOnRows(w, p, a);
  }

  /** Row and Docker containers of every other container are as they were. */
  ghost predicate OthersSame(w: World, w': World, t: ContainerId) {
    && (forall c :: c != t ==> RowOf(w', c) == RowOf(w, c))
    && (forall d: DockerId :: d.name != t ==> (d in w'.docker <==> d in w.docker) && (d in w'.made <==> d in w.made))
    && (forall d: DockerId :: d.name != t && d in w.docker ==> w'.docker[d] == w.docker[d])
  }

  lemma FrameReads(w: World, p: Proc, a: Answer)
    requires p.Busy? && ProcOk(w.made, p) && !Drives(p.pc)
    ensures OthersSame(w, Work(w, p, a).world, p.job.target)
  {
  }

  lemma FrameDrives(w: World, p: Proc, a: Answer)
    requires p.Busy? && ProcOk(w.made, p) && Allowed(w, p.pc, a) && Drives(p.pc)
    ensures OthersSame(w, Work(w, p, a).world, p.job.target)
  {
  }

  /** A step of a worker leaves every other container's row and Docker containers alone. */
  lemma WorkFrame(w: World, p: Proc, a: Answer)
    requires WorldOk(w) && p.Busy? && ProcOk(w.made, p) && Allowed(w, p.pc, a)
    ensures OthersSame(w, Work(w, p, a).world, p.job.target)
  {
    if Drives(p.pc) { FrameDrives(w, p, a); } else { FrameReads(w, p, a); }
  }

  lemma WorkLife(s: Sys, i: nat, a: Answer)
    requires Life(s) && i < |s.workers| && s.workers[i].Busy? && Allowed(s.w, s.workers[i].pc, a)
    ensures Life(WorkOn(s, i, a))
  {
    var p, t := s.workers[i], WorkOn(s, i, a);
    WorkDocker(s.w, p, a);
    WorkProc(s.w, p, a);
    WorkWorld(s.w, p, a);
    forall k | 0 <= k < |t.workers| ensures ProcOk(t.w.made, t.workers[k]) {
      if k != i { assert ProcOk(s.w.made, s.workers[k]); }
    }
  }

  /** The other steps keep the Docker IDs and the workers' copies, and touch rows only to found one. */
  lemma OtherLife(s: Sys, t: Sys)
    requires Life(s) && t.w.made == s.w.made
    requires forall i :: 0 <= i < |t.workers| ==> t.workers[i] in s.workers || t.workers[i].Idle? || t.workers[i].pc.Mark?
    requires t.w.docker.Keys == s.w.docker.Keys
    requires forall c :: c in t.w.rows && !(c in s.w.rows && t.w.rows[c] == s.w.rows[c]) ==>
               t.w.rows[c].id == c && t.w.rows[c].status == Created && t.w.rows[c].dockerId == None
    ensures Life(t)
  {
  }

  lemma ServeLife(s: Sys, r: Request, reply: Reply)
    requires Life(s) && RequestOk(r, s.hist.rowIds)
    ensures Life(ServeNext(s, r, reply))
  {
    ServeReach(s, r, reply);
    OtherLife(s, ServeNext(s, r, reply));
  }

  lemma SameLife(s: Sys, t: Sys)
    requires Life(s) && t.workers == s.workers && t.w.rows == s.w.rows && t.w.made == s.w.made && t.w.docker.Keys == s.w.docker.Keys
    ensures Life(t)
  {
  }

  lemma TakeLife(s: Sys, i: nat)
    requires Life(s) && i < |s.workers| && |s.queue| > 0
    ensures Life(TakeJob(s, i))
  {
    OtherLife(s, TakeJob(s, i));
  }

  lemma FallLife(s: Sys)
    requires Life(s)
    ensures Life(Fall(s))
  {
    OtherLife(s, Fall(s));
  }

  lemma StepLife(s: Sys, st: Step)
    requires Keyed(s) && Life(s) && Enabled(s, st)
    ensures Life(Apply(s, st))
  {
    match st
    case Answered(i, a) => WorkLife(s, i, a);
    case Serve(j, reply) => ServeLife(s, s.reqs[j], reply);
    case Take(i) => TakeLife(s, i);
    case Crash => FallLife(s);
    case _ => SameLife(s, Apply(s, st));
  }
}
