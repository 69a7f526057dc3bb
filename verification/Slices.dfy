/** The part of the world that one job and its container can see and touch. */
module Slices {
  import opened Domain
  import opened Store
  import opened WorkerSteps
  import opened Lifecycle

  // ---------- slices of the world ----------

  function JobOf(w: World, j: JobId): Option<Job> { if j in w.jobs then Some(w.jobs[j]) else None }

  ghost predicate SameContainer(v: World, w: World, c: ContainerId) {
    && RowOf(v, c) == RowOf(w, c)
    && (forall d: DockerId :: d.name == c ==> (d in v.docker <==> d in w.docker) && (d in v.made <==> d in w.made))
    && (forall d: DockerId :: d.name == c && d in v.docker && d in w.docker ==> v.docker[d] == w.docker[d])
  }

  ghost predicate SameSlice(v: World, w: World, c: ContainerId, j: JobId) {
    SameContainer(v, w, c) && JobOf(v, j) == JobOf(w, j)
  }

  /** w differs from v at most in container c and job j. */
  ghost predicate OnlyTouches(v: World, w: World, c: ContainerId, j: JobId) {
    && (forall e :: e != c ==> SameContainer(v, w, e))
    && (forall k :: k != j ==> JobOf(v, k) == JobOf(w, k))
  }

  lemma TouchesTwice(u: World, v: World, w: World, c: ContainerId, j: JobId)
    requires OnlyTouches(u, v, c, j) && OnlyTouches(v, w, c, j)
    ensures OnlyTouches(u, w, c, j)
  {
    forall e | e != c ensures SameContainer(u, w, e) {
      assert SameContainer(u, v, e) && SameContainer(v, w, e);
    }
  }

  lemma SameWorlds(v: World, w: World)
    requires forall c :: SameContainer(v, w, c)
    requires forall j :: JobOf(v, j) == JobOf(w, j)
    ensures v == w
  {
    forall d: DockerId ensures (d in v.docker <==> d in w.docker) && (d in v.made <==> d in w.made) {
      assert SameContainer(v, w, d.name);
    }
    forall d | d in v.docker ensures v.docker[d] == w.docker[d] { assert SameContainer(v, w, d.name); }
    forall c ensures RowOf(v, c) == RowOf(w, c) { assert SameContainer(v, w, c); }
    assert v.rows == w.rows by {
      forall c ensures c in v.rows <==> c in w.rows { assert RowOf(v, c) == RowOf(w, c); }
      forall c | c in v.rows ensures v.rows[c] == w.rows[c] { assert RowOf(v, c) == RowOf(w, c); }
    }
    assert v.jobs == w.jobs by {
      forall j ensures j in v.jobs <==> j in w.jobs { assert JobOf(v, j) == JobOf(w, j); }
      forall j | j in v.jobs ensures v.jobs[j] == w.jobs[j] { assert JobOf(v, j) == JobOf(w, j); }
    }
    assert v.docker == w.docker && v.made == w.made;
  }

  lemma WorkLocalJob(v: World, w: World, p: Proc, a: Answer)
    requires p.Busy? && SameSlice(v, w, p.job.target, p.job.id) && (p.pc.Mark? || p.pc.Fetch? || p.pc.Mkdir? || p.pc.Finish?)
    ensures Work(v, p, a).proc == Work(w, p, a).proc
    ensures SameSlice(Work(v, p, a).world, Work(w, p, a).world, p.job.target, p.job.id)
    ensures OnlyTouches(v, Work(v, p, a).world, p.job.target, p.job.id)
  {
  }

  lemma HaltLocal(v: World, w: World, d: DockerId, j: JobId)
    requires SameSlice(v, w, d.name, j)
    ensures SameSlice(Halt(v, d), Halt(w, d), d.name, j) && (d in v.docker <==> d in w.docker)
    ensures OnlyTouches(v, Halt(v, d), d.name, j)
  {
  }

  lemma LaunchLocal(v: World, w: World, d: DockerId, j: JobId)
    requires SameSlice(v, w, d.name, j)
    ensures SameSlice(Launch(v, d), Launch(w, d), d.name, j) && (d in v.docker <==> d in w.docker)
    ensures OnlyTouches(v, Launch(v, d), d.name, j)
  {
  }

  lemma ProvideLocal(v: World, w: World, d: DockerId, j: JobId)
    requires SameSlice(v, w, d.name, j)
    ensures SameSlice(Provide(v, d), Provide(w, d), d.name, j)
    ensures OnlyTouches(v, Provide(v, d), d.name, j)
  {
  }

  lemma DiscardLocal(v: World, w: World, d: DockerId, j: JobId)
    requires SameSlice(v, w, d.name, j)
    ensures SameSlice(Discard(v, d), Discard(w, d), d.name, j) && (d in v.docker <==> d in w.docker)
    ensures OnlyTouches(v, Discard(v, d), d.name, j)
  {
  }

  lemma NameTakenLocal(v: World, w: World, c: ContainerId)
    requires SameContainer(v, w, c)
    ensures NameTaken(v, c) <==> NameTaken(w, c)
  {
  }

  lemma WorkLocalStart(v: World, w: World, p: Proc, a: Answer)
    requires p.Busy? && ProcOk(w.made, p) && SameSlice(v, w, p.job.target, p.job.id) && Allowed(w, p.pc, a)
    requires p.pc.DockerCreate? || p.pc.FirstStart? || p.pc.DockerStart?
    ensures Work(v, p, a).proc == Work(w, p, a).proc
    ensures SameSlice(Work(v, p, a).world, Work(w, p, a).world, p.job.target, p.job.id)
    ensures OnlyTouches(v, Work(v, p, a).world, p.job.target, p.job.id)
  {
    match p.pc
    case DockerCreate(c) => NameTakenLocal(v, w, c.id); ProvideLocal(v, w, a.newId, p.job.id);
    case FirstStart(_, d) => LaunchLocal(v, w, d, p.job.id);
    case DockerStart(_, d) => LaunchLocal(v, w, d, p.job.id);
  }

  lemma WorkLocalDocker(v: World, w: World, p: Proc, a: Answer)
    requires p.Busy? && ProcOk(w.made, p) && SameSlice(v, w, p.job.target, p.job.id) && Allowed(w, p.pc, a)
    requires p.pc.Cleanup? || p.pc.DockerStop? || p.pc.DockerRemove? || p.pc.WaitExit? || p.pc.Inspect?
    ensures Work(v, p, a).proc == Work(w, p, a).proc
    ensures SameSlice(Work(v, p, a).world, Work(w, p, a).world, p.job.target, p.job.id)
    ensures OnlyTouches(v, Work(v, p, a).world, p.job.target, p.job.id)
  {
    match p.pc
    case Cleanup(d) => DiscardLocal(v, w, d, p.job.id);
    case DockerStop(_, d) => HaltLocal(v, w, d, p.job.id);
    case DockerRemove(d) => DiscardLocal(v, w, d, p.job.id);
    case WaitExit(_, _) =>
    case Inspect(_, _) =>
  }

  lemma WriteLocal(v: World, w: World, c: Container, t: ContainerId, j: JobId, reply: Reply)
    requires SameSlice(v, w, t, j) && c.id == t
    ensures SameSlice(UpdateRow(v, c, reply), UpdateRow(w, c, reply), t, j) && OnlyTouches(v, UpdateRow(v, c, reply), t, j)
    ensures Confirmed(v, t, reply) <==> Confirmed(w, t, reply)
  {
  }

  lemma DropLocal(v: World, w: World, t: ContainerId, j: JobId, reply: Reply)
    requires SameSlice(v, w, t, j)
    ensures SameSlice(DeleteRow(v, t, reply), DeleteRow(w, t, reply), t, j) && OnlyTouches(v, DeleteRow(v, t, reply), t, j)
    ensures Confirmed(v, t, reply) <==> Confirmed(w, t, reply)
  {
  }

  lemma WorkLocalRow(v: World, w: World, p: Proc, a: Answer)
    requires p.Busy? && ProcOk(w.made, p) && SameSlice(v, w, p.job.target, p.job.id) && (p.pc.WriteRow? || p.pc.DropRow?)
    ensures Work(v, p, a).proc == Work(w, p, a).proc
    ensures SameSlice(Work(v, p, a).world, Work(w, p, a).world, p.job.target, p.job.id)
    ensures OnlyTouches(v, Work(v, p, a).world, p.job.target, p.job.id)
  {
    match p.pc
    case WriteRow(c, _) => WriteLocal(v, w, c, p.job.target, p.job.id, a.reply);
    case DropRow(_) => DropLocal(v, w, p.job.target, p.job.id, a.reply);
  }

  lemma AllowedLocal(v: World, w: World, p: Proc, a: Answer)
    requires p.Busy? && ProcOk(w.made, p) && SameSlice(v, w, p.job.target, p.job.id) && Allowed(w, p.pc, a)
    ensures Allowed(v, p.pc, a)
  {
  }

  /** A step depends on, and touches, only the slice of its job and its container. */
  lemma WorkLocal(v: World, w: World, p: Proc, a: Answer)
    requires p.Busy? && ProcOk(w.made, p) && SameSlice(v, w, p.job.target, p.job.id) && Allowed(w, p.pc, a)
    ensures Work(v, p, a).proc == Work(w, p, a).proc
    ensures SameSlice(Work(v, p, a).world, Work(w, p, a).world, p.job.target, p.job.id)
    ensures OnlyTouches(v, Work(v, p, a).world, p.job.target, p.job.id)
  {
    if p.pc.Mark? || p.pc.Fetch? || p.pc.Mkdir? || p.pc.Finish? {
      WorkLocalJob(v, w, p, a);
    } else if p.pc.WriteRow? || p.pc.DropRow? {
      WorkLocalRow(v, w, p, a);
    } else if p.pc.DockerCreate? || p.pc.FirstStart? || p.pc.DockerStart? {
      WorkLocalStart(v, w, p, a);
    } else {
      WorkLocalDocker(v, w, p, a);
    }
  }
}
