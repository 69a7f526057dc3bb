/** One container at a time: what its row, its Docker container and the only worker on it
    tell about each other while the container is orderly. */
module Containers {
  import opened Domain
  import opened Store
  import opened WorkerSteps
  import opened Protocol
  import opened Invariant
  import opened Lifecycle

  predicate Linked(w: World, c: ContainerId, d: DockerId) { c in w.rows && w.rows[c].dockerId == Some(d) }

  predicate Unlinked(w: World, c: ContainerId) { c in w.rows ==> w.rows[c].dockerId.None? }

  /** Every Docker container of this name is the one the row carries. */
  predicate Rooted(w: World, c: ContainerId) {
    (c in w.rows ==> w.rows[c].dockerId.Some?) && forall d :: d in w.docker && d.name == c ==> Linked(w, c, d)
  }

  predicate Backed(w: World, c: ContainerId) {
    c in w.rows && w.rows[c].dockerId.Some? ==> w.rows[c].dockerId.value in w.docker
  }

  /** A row that does not say Running carries no running Docker container. */
  predicate Quiet(w: World, c: ContainerId) {
    c in w.rows && w.rows[c].status != Running && w.rows[c].dockerId.Some? ==> !IsRunning(w, w.rows[c].dockerId.value)
  }

  /** Docker does not have the container that the row carries. */
  predicate Emptied(w: World, c: ContainerId) {
    c in w.rows && w.rows[c].dockerId.Some? ==> w.rows[c].dockerId.value !in w.docker
  }

  predicate NotRunning(w: World, c: ContainerId) { c in w.rows ==> w.rows[c].status != Running }

  predicate Gone(w: World, c: ContainerId) { forall d :: d in w.docker ==> d.name != c }

  /** What the worker on an orderly container knows between two of its calls. */
  predicate Local(w: World, born: set<ContainerId>, p: Proc)
    requires p.Busy?
  {
    var t, creates := p.job.target, p.job.kind == CreateContainer;
    match p.pc
    case Mark => true
    case Fetch => true
    case Mkdir(_) => true
    case DockerCreate(_) => true
    case FirstStart(_, d) => d in w.docker && Unlinked(w, t)
    case Cleanup(d) => d in w.docker && Unlinked(w, t)
    case DockerStart(_, d) => Linked(w, t, d)
    case WaitExit(_, d) => d in w.docker && (Linked(w, t, d) || (creates && Unlinked(w, t)))
    case Inspect(_, d) => d in w.docker && (Linked(w, t, d) || (creates && Unlinked(w, t)))
    case DockerStop(_, d) => Linked(w, t, d)
    case DockerRemove(d) => Linked(w, t, d)
    case WriteRow(c, _) =>
      c.dockerId.Some? &&
      var d := c.dockerId.value;
      && (c.status == Exited ==> !IsRunning(w, d))
      && d in w.docker && (Linked(w, t, d) || (creates && Unlinked(w, t)))
    case DropRow(_) => Emptied(w, t) && (t in born ==> Gone(w, t))
    case Finish(v) => v.None? ==> if p.job.kind == DeleteContainer then t in born ==> Gone(w, t) else Carried(w, t)
  }

  /** Docker has the container that the row carries, and it does not run if the row says Exited. */
  predicate Carried(w: World, c: ContainerId) {
    && c in w.rows && w.rows[c].dockerId.Some? && w.rows[c].dockerId.value in w.docker
    && (w.rows[c].status == Exited ==> !IsRunning(w, w.rows[c].dockerId.value))
  }

  predicate Knows(w: World, h: History, p: Proc)
    requires p.Busy?
  {
    var t := p.job.target;
    && Local(w, h.born, p)
    && (t in h.born ==> p.job.kind != CreateContainer && Rooted(w, t))
    && (p.job.kind == CreateContainer ==> Backed(w, t))
    && (t !in h.drift && !Launched(p) ==> Quiet(w, t))
  }

  /** What a step leaves behind, with the worker at p' (or gone idle). */
  predicate Leaves(w: World, h: History, job: Job, p': Proc) {
    var t := job.target;
    && (p'.Busy? ==> Local(w, h.born, p'))
    && (t in h.born ==> Rooted(w, t))
    && (job.kind == CreateContainer ==> Backed(w, t))
    && (t !in h.drift && !Launched(p') ==> Quiet(w, t))
  }

  predicate Able(w: World, h: History, p: Proc, a: Answer) {
    WorldOk(w) && p.Busy? && ProcOk(w.made, p) && Allowed(w, p.pc, a) && Knows(w, h, p)
  }

  predicate StepLeaves(w: World, h: History, p: Proc, a: Answer)
    requires p.Busy?
  {
    var o := Work(w, p, a);
    Leaves(o.world, Record(h, w, p, a, o.proc), p.job, o.proc)
  }

  predicate Observes(pc: Pc) { pc.WaitExit? || pc.Inspect? }

  lemma ReadStep(w: World, h: History, p: Proc, a: Answer)
    requires Able(w, h, p, a) && (p.pc.Mark? || p.pc.Fetch? || p.pc.Mkdir?)
    ensures StepLeaves(w, h, p, a)
  {
  }

  lemma CreateStep(w: World, h: History, p: Proc, a: Answer)
    requires Able(w, h, p, a) && (p.pc.DockerCreate? || p.pc.FirstStart? || p.pc.Cleanup?)
    ensures StepLeaves(w, h, p, a)
  {
  }

  lemma StartStep(w: World, h: History, p: Proc, a: Answer)
    requires Able(w, h, p, a) && (p.pc.DockerStart? || Observes(p.pc))
    ensures StepLeaves(w, h, p, a)
  {
  }

  lemma StopStep(w: World, h: History, p: Proc, a: Answer)
    requires Able(w, h, p, a) && p.pc.DockerStop?
    ensures StepLeaves(w, h, p, a)
  {
  }

  lemma WriteStep(w: World, h: History, p: Proc, a: Answer)
    requires Able(w, h, p, a) && p.pc.WriteRow?
    ensures StepLeaves(w, h, p, a)
  {
  }

  lemma DeleteStep(w: World, h: History, p: Proc, a: Answer)
    requires Able(w, h, p, a) && (p.pc.DockerRemove? || p.pc.DropRow?)
    ensures StepLeaves(w, h, p, a)
  {
  }

  lemma DeleteKeepsStatus(w: World, p: Proc, a: Answer)
    requires p.Busy? && ProcOk(w.made, p) && p.job.kind == DeleteContainer && NotRunning(w, p.job.target)
    ensures NotRunning(Work(w, p, a).world, p.job.target)
  {
    WorkOnRows(w, p, a);
  }

  lemma FinishStep(w: World, h: History, p: Proc, a: Answer)
    requires Able(w, h, p, a) && p.pc.Finish?
    ensures StepLeaves(w, h, p, a)
  {
  }

  /** A worker alone on its container leaves the container's facts in order, whatever it is answered. */
  lemma AloneStep(w: World, h: History, p: Proc, a: Answer)
    requires Able(w, h, p, a)
    ensures StepLeaves(w, h, p, a)
  {
    match p.pc
    case Mark => ReadStep(w, h, p, a);
    case Fetch => ReadStep(w, h, p, a);
    case Mkdir(_) => ReadStep(w, h, p, a);
    case DockerCreate(_) => CreateStep(w, h, p, a);
    case FirstStart(_, _) => CreateStep(w, h, p, a);
    case Cleanup(_) => CreateStep(w, h, p, a);
    case DockerStart(_, _) => StartStep(w, h, p, a);
    case WaitExit(_, _) => StartStep(w, h, p, a);
    case Inspect(_, _) => StartStep(w, h, p, a);
    case DockerStop(_, _) => StopStep(w, h, p, a);
    case DockerRemove(_) => DeleteStep(w, h, p, a);
    case WriteRow(_, _) => WriteStep(w, h, p, a);
    case DropRow(_) => DeleteStep(w, h, p, a);
    case Finish(_) => FinishStep(w, h, p, a);
  }

  /** Seen from container c, w' differs from w at most by Docker containers that stopped. */
  ghost predicate StillBut(w: World, w': World, c: ContainerId) {
    && RowOf(w', c) == RowOf(w, c)
    && (forall d: DockerId :: d.name == c ==> (d in w'.docker <==> d in w.docker))
    && (forall d: DockerId :: d.name == c && d in w'.docker && w'.docker[d] ==> w.docker[d])
  }

  lemma StillKnows(w: World, w': World, c: ContainerId)
    requires StillBut(w, w', c) && WorldOk(w)
    ensures Rooted(w, c) ==> Rooted(w', c)
    ensures Backed(w, c) ==> Backed(w', c)
    ensures Quiet(w, c) ==> Quiet(w', c)
    ensures NotRunning(w, c) ==> NotRunning(w', c)
    ensures Unlinked(w, c) ==> Unlinked(w', c)
  {
  }

  lemma StillLocal(w: World, w': World, born: set<ContainerId>, born': set<ContainerId>, p: Proc)
    requires p.Busy? && StillBut(w, w', p.job.target) && WorldOk(w) && ProcOk(w.made, p)
    requires p.job.target in born' ==> p.job.target in born
    requires Local(w, born, p)
    ensures Local(w', born', p)
  {
  }
}
