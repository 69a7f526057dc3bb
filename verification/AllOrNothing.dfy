/** A job changes its container row completely or not at all. */
module AllOrNothing {
  import opened Domain
  import opened Store
  import opened WorkerSteps
  import opened Protocol
  import opened Invariant
  import opened Lifecycle
  import opened Containers
  import opened Accounting
  import opened ContainerTheorems
  import opened RowHistory

  predicate Observed(status: ContainerStatus) { status == Running || status == Exited }

  /** The postcondition of a job, as a relation between the row when the job was taken and the row
      it leaves: only status, Docker ID and update time move, and they end as the kind promises. */
  predicate Achieves(kind: JobKind, before: Option<Container>, after: Option<Container>) {
    && before.Some?
    && (kind == DeleteContainer ==> after == None)
    && (kind != DeleteContainer ==>
          && after.Some? && after.value.dockerId.Some?
          && after.value == before.value.(status := after.value.status, dockerId := after.value.dockerId, updatedAt := after.value.updatedAt)
          && (kind != CreateContainer ==> after.value.dockerId == before.value.dockerId)
          && (if kind == StopContainer then after.value.status == Exited else Observed(after.value.status)))
  }

  /** The Docker container that this row carried is gone. */
  predicate Removed(w: World, c: ContainerId, row: Container) {
    row.dockerId.Some? ==> row.dockerId.value.name == c && row.dockerId.value !in w.docker
  }

  /** What Docker holds when a job has succeeded. CREATE and START: the container the row carries. STOP:
      that container, not running. DELETE: not the container the row had; and no container under its
      name at all, if the CREATE job had been recorded as successful. */
  predicate AchievesInDocker(w: World, born: set<ContainerId>, p: Proc)
    requires p.Busy?
  {
    var c := p.job.target;
    if p.job.kind == DeleteContainer then
      p.before.Some? && Removed(w, c, p.before.value) && (c in born ==> Gone(w, c))
    else
      Carried(w, c) && (p.job.kind == StopContainer ==> !IsRunning(w, w.rows[c].dockerId.value))
  }

  /** How far the row is: untouched until the write that completes the job. */
  predicate Progress(w: World, p: Proc)
    requires p.Busy?
  {
    var row, b := RowOf(w, p.job.target), p.before;
    match p.pc
    case Mark => row == b
    case Fetch => row == b
    case Mkdir(c) => row == b == Some(c)
    case DockerCreate(c) => row == b == Some(c)
    case FirstStart(c, _) => row == b == Some(c)
    case Cleanup(_) => row == b
    case DockerStart(c, _) => row == b == Some(c)
    case WaitExit(c, d) => row == b && b.Some? && c == b.value.(dockerId := Some(d)) && (p.job.kind != CreateContainer ==> c == b.value)
    case Inspect(c, d) => row == b && b.Some? && c == b.value.(dockerId := Some(d)) && (p.job.kind != CreateContainer ==> c == b.value)
    case DockerStop(c, _) => row == b == Some(c)
    case DockerRemove(d) => row == b && b.Some? && b.value.dockerId == Some(d)
    case WriteRow(c, _) => row == b && Achieves(p.job.kind, b, Some(c))
    case DropRow(_) => row == b && b.Some? && Removed(w, p.job.target, b.value)
    case Finish(v) =>
      if v.Some? then row == b
      else Achieves(p.job.kind, b, row) && (p.job.kind == DeleteContainer ==> Removed(w, p.job.target, b.value))
  }

  predicate MayProgress(w: World, p: Proc, a: Answer) {
    && p.Busy? && WorldOk(w) && ProcOk(w.made, p) && Progress(w, p)
    && (p.pc.WriteRow? || p.pc.DropRow? ==> !a.reply.Lost?)
  }

  predicate Writes(pc: Pc) { pc.WaitExit? || pc.Inspect? || pc.DockerStop? || pc.WriteRow? || pc.DropRow? }

  lemma ProgressFetching(w: World, p: Proc, a: Answer)
    requires MayProgress(w, p, a) && (p.pc.Mark? || p.pc.Fetch? || p.pc.Mkdir?)
    ensures var o := Work(w, p, a); o.proc.Busy? ==> Progress(o.world, o.proc)
  {
  }

  lemma ProgressDriving(w: World, p: Proc, a: Answer)
    requires MayProgress(w, p, a) && !Writes(p.pc) && !p.pc.Mark? && !p.pc.Fetch? && !p.pc.Mkdir?
    ensures var o := Work(w, p, a); o.proc.Busy? ==> Progress(o.world, o.proc)
  {
  }

  lemma ProgressWriting(w: World, p: Proc, a: Answer)
    requires MayProgress(w, p, a) && Writes(p.pc)
    ensures var o := Work(w, p, a); o.proc.Busy? ==> Progress(o.world, o.proc)
  {
  }

  lemma ProgressOwn(w: World, p: Proc, a: Answer)
    requires MayProgress(w, p, a)
    ensures var o := Work(w, p, a); o.proc.Busy? ==> Progress(o.world, o.proc)
  {
    if Writes(p.pc) { ProgressWriting(w, p, a); }
    else if p.pc.Mark? || p.pc.Fetch? || p.pc.Mkdir? { ProgressFetching(w, p, a); }
    else { ProgressDriving(w, p, a); }
  }

  predicate Traced(s: Sys, p: Proc) {
    p.Busy? && Orderly(s.hist, p.job.target) && p.job.target !in s.hist.blurred ==> Progress(s.w, p)
  }

  predicate AllTraced(s: Sys) { forall i :: 0 <= i < |s.workers| ==> Traced(s, s.workers[i]) }

  lemma RecordGrows(h: History, w: World, p: Proc, a: Answer, p': Proc)
    requires p.Busy?
    ensures var h' := Record(h, w, p, a, p');
      && h'.split == h.split && h'.unchecked == h.unchecked && h.blurred <= h'.blurred
      && ((p.pc.WriteRow? || p.pc.DropRow?) && p.job.target !in h'.blurred ==> !a.reply.Lost?)
  {
  }

  lemma WorkTraced(s: Sys, i: nat, a: Answer, k: nat)
    requires CanWork(s, i, a) && AllTraced(s) && k < |s.workers|
    ensures Traced(WorkOn(s, i, a), WorkOn(s, i, a).workers[k])
  {
    var p, t := s.workers[i], WorkOn(s, i, a);
    assert Traced(s, s.workers[k]) && ProcOk(s.w.made, p);
    RecordGrows(s.hist, s.w, p, a, t.workers[i]);
    WorkOnProc(s.w, p, a);
    if t.workers[k].Busy? && Orderly(t.hist, t.workers[k].job.target) && t.workers[k].job.target !in t.hist.blurred {
      if k == i {
        ProgressOwn(s.w, p, a);
      } else {
        if s.workers[k].job.target == p.job.target { OneWorker(s, i, k); }
        OthersStill(s, i, a, s.workers[k].job.target);
      }
    }
  }

  lemma StepTraced(s: Sys, st: Step)
    requires Good(s) && AllTraced(s) && Enabled(s, st)
    ensures AllTraced(Apply(s, st))
  {
    var t := Apply(s, st);
    if st.Answered? {
      forall k | 0 <= k < |t.workers| ensures Traced(t, t.workers[k]) { WorkTraced(s, st.i, st.a, k); }
    } else if !st.Crash? {
      forall k | 0 <= k < |t.workers| ensures Traced(t, t.workers[k]) { OtherTraced(s, st, k); }
    }
  }

  lemma OtherTraced(s: Sys, st: Step, k: nat)
    requires Good(s) && AllTraced(s) && Enabled(s, st) && !st.Answered? && !st.Crash? && k < |s.workers|
    ensures |Apply(s, st).workers| == |s.workers| && Traced(Apply(s, st), Apply(s, st).workers[k])
  {
    var t := Apply(s, st);
    OtherHistory(s, st);
    assert Traced(s, s.workers[k]);
    if t.workers[k].Busy? && t.workers[k] == s.workers[k] {
      StepRow(s, st, t.workers[k].job.target);
      if FoundsRow(s, st, t.workers[k].job.target) { FoundAlone(s, s.reqs[st.id]); }
    }
  }

  lemma OtherHistory(s: Sys, st: Step)
    requires Enabled(s, st) && !st.Answered? && !st.Crash?
    ensures var t := Apply(s, st);
      && |t.workers| == |s.workers| && t.hist.blurred == s.hist.blurred
      && s.hist.split <= t.hist.split && s.hist.unchecked <= t.hist.unchecked
      && t.w.docker.Keys == s.w.docker.Keys
      && forall k :: 0 <= k < |s.workers| && t.workers[k] != s.workers[k] ==>
           t.workers[k].Busy? && t.workers[k].pc.Mark? && RowOf(t.w, t.workers[k].job.target) == t.workers[k].before
  {
    match st
    case Serve(j, reply) => ServeReach(s, s.reqs[j], reply); ServeGrows(s, s.reqs[j], reply);
    case _ =>
  }

  lemma ServeGrows(s: Sys, r: Request, reply: Reply)
    ensures Grows(s.hist, ServeNext(s, r, reply).hist)
  {
  }

  lemma {:induction false} RunTraced(s: Sys, run: seq<Step>)
    requires Good(s) && AllTraced(s) && Feasible(s, run)
    ensures Good(Final(s, run)) && AllTraced(Final(s, run))
    decreases |run|
  {
    if run != [] {
      StepGood(s, run[0]);
      StepTraced(s, run[0]);
      RunTraced(Apply(s, run[0]), run[1..]);
    }
  }

  lemma ReachableTraced(s: Sys)
    requires Reachable(s)
    ensures Good(s) && AllTraced(s)
  {
    var s0, run :| Init(s0) && Feasible(s0, run) && s == Final(s0, run);
    InitGood(s0);
    RunTraced(s0, run);
  }

  /** On an orderly container without blurred writes: when a worker is about to record its job, a
      failed job's row is exactly what it was when the job was taken, and a successful job's row
      meets the postcondition of its kind, with Docker holding what it promises. At every moment before that, crash or no crash, the row
      is at one of the two. */
  lemma JobIsAtomic(s: Sys, i: nat)
    requires Reachable(s) && i < |s.workers| && s.workers[i].Busy?
    requires Orderly(s.hist, s.workers[i].job.target) && s.workers[i].job.target !in s.hist.blurred
    ensures var p := s.workers[i];
      var row := RowOf(s.w, p.job.target);
      && (row == p.before || Achieves(p.job.kind, p.before, row))
      && (p.pc.Finish? && p.pc.verdict.Some? ==> row == p.before)
      && (p.pc.Finish? && p.pc.verdict.None? ==> Achieves(p.job.kind, p.before, row) && AchievesInDocker(s.w, s.hist.born, p))
  {
    ReachableTraced(s);
    assert Traced(s, s.workers[i]) && WorkerSound(s, s.workers[i]);
  }

  /** So a job that the next start-up fails has its container row at its full before-value or at a full
      after-value: neither the crash nor the recovery touches it. */
  lemma RecoveryFindsWholeRow(s: Sys, i: nat, reply: Reply)
    requires Reachable(s) && i < |s.workers| && s.workers[i].Busy?
    requires Orderly(s.hist, s.workers[i].job.target) && s.workers[i].job.target !in s.hist.blurred
    ensures var p, row := s.workers[i], RowOf(SweepUp(Fall(s), reply).w, s.workers[i].job.target);
      row == p.before || Achieves(p.job.kind, p.before, row)
  {
    JobIsAtomic(s, i);
  }

  /** The postcondition of a successful job lasts until a worker takes the next job of the container. */
  lemma SuccessLasts(s: Sys, i: nat, a: Answer, rest: seq<Step>)
    requires Reachable(s) && Enabled(s, Answered(i, a)) && s.workers[i].pc == Finish(None)
    requires Orderly(s.hist, s.workers[i].job.target) && s.workers[i].job.target !in s.hist.blurred
    requires Feasible(Apply(s, Answered(i, a)), rest) && Undisturbed(Apply(s, Answered(i, a)), rest, s.workers[i].job.target)
    ensures var p := s.workers[i];
      Achieves(p.job.kind, p.before, RowOf(Final(Apply(s, Answered(i, a)), rest).w, p.job.target))
  {
    var c, t := s.workers[i].job.target, Apply(s, Answered(i, a));
    JobIsAtomic(s, i);
    ReachableGood(s);
    StepGood(s, Answered(i, a));
    FinishKeepsRow(s, i, a);
    assert WorkerOk(s.w.jobs, s.workers[i]);
    if c !in t.w.rows { GoneForGood(s, i, a); }
    RowPersists(t, rest, c);
  }

  lemma FinishKeepsRow(s: Sys, i: nat, a: Answer)
    requires i < |s.workers| && s.workers[i].Busy? && s.workers[i].pc.Finish?
    ensures WorkOn(s, i, a).w.rows == s.w.rows && WorkOn(s, i, a).reqs == s.reqs && WorkOn(s, i, a).hist.rowIds == s.hist.rowIds
  {
  }

  /** A row that a job of the container does not find will not be founded any more. */
  lemma GoneForGood(s: Sys, i: nat, a: Answer)
    requires Inv(s) && i < |s.workers| && s.workers[i].Busy? && s.workers[i].pc.Finish? && s.workers[i].job.target !in s.w.rows
    ensures Absent(WorkOn(s, i, a), s.workers[i].job.target)
  {
    var c := s.workers[i].job.target;
    assert WorkerOk(s.w.jobs, s.workers[i]);
    FinishKeepsRow(s, i, a);
    forall j | j in s.reqs && s.reqs[j].stage.NewRow? ensures s.reqs[j].job.target != c {
      assert Meets(s.hist, s.reqs[j], s.w.jobs[s.workers[i].job.id]);
    }
  }

  /** `before` is the row the worker found when it took the job, for as long as it is busy with it. */
  lemma {:induction false} BeforeIsRowAtTake(s: Sys, i: nat, rest: seq<Step>)
    requires Enabled(s, Take(i)) && Feasible(Apply(s, Take(i)), rest)
    requires forall k :: 0 <= k < |rest| ==> rest[k] != Take(i) && !rest[k].Crash?
    ensures var p := Final(Apply(s, Take(i)), rest).workers;
      i < |p| && (p[i].Busy? ==> p[i].before == RowOf(s.w, s.queue[0].target))
  {
    BeforeKept(Apply(s, Take(i)), i, rest);
  }

  lemma {:induction false} BeforeKept(s: Sys, i: nat, run: seq<Step>)
    requires Feasible(s, run) && i < |s.workers|
    requires forall k :: 0 <= k < |run| ==> run[k] != Take(i) && !run[k].Crash?
    ensures var p := Final(s, run).workers;
      i < |p| && (p[i].Busy? ==> s.workers[i].Busy? && p[i].before == s.workers[i].before)
    decreases |run|
  {
    if run != [] {
      BeforeStep(s, i, run[0]);
      BeforeKept(Apply(s, run[0]), i, run[1..]);
    }
  }

  lemma BeforeStep(s: Sys, i: nat, st: Step)
    requires Enabled(s, st) && st != Take(i) && !st.Crash? && i < |s.workers|
    ensures var p := Apply(s, st).workers;
      i < |p| && (p[i].Busy? ==> s.workers[i].Busy? && p[i].before == s.workers[i].before)
  {
    match st
    case Serve(j, reply) => ServeReach(s, s.reqs[j], reply);
    case Answered(k, a) => WorkOnProc(s.w, s.workers[k], a);
    case _ =>
  }
}
