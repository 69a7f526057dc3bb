/** Docker containers that no row carries: exactly where they come from. */
module Orphans {
  import opened Domain
  import opened Store
  import opened WorkerSteps
  import opened Protocol
  import opened Invariant
  import opened Lifecycle
  import opened Containers
  import opened Accounting
  import opened ContainerTheorems
  import opened RowHistory

  /** Docker has a container under this name that the row does not carry. */
  predicate Orphaned(w: World, c: ContainerId) { exists d :: d in w.docker && d.name == c && !Linked(w, c, d) }

  /** A CREATE job is at work on a Docker container of its own making. */
  predicate MakingOn(workers: seq<Proc>, c: ContainerId) {
    exists i :: 0 <= i < |workers| && Unrecorded(workers[i]).Some? && workers[i].job.target == c
  }

  predicate OrphanLaw(s: Sys, c: ContainerId) {
    Orderly(s.hist, c) ==> (c in s.hist.orphans <==> Orphaned(s.w, c) && !MakingOn(s.workers, c))
  }

  ghost predicate OrphansLaw(s: Sys) { forall c :: OrphanLaw(s, c) }

  /** For the one worker p of container c. */
  predicate Accounts(w: World, h: History, p: Proc, c: ContainerId) {
    c in h.orphans <==> Orphaned(w, c) && Unrecorded(p).None?
  }

  predicate Ready(w: World, h: History, p: Proc, a: Answer) {
    Able(w, h, p, a) && Accounts(w, h, p, p.job.target)
  }

  predicate StepAccounts(w: World, h: History, p: Proc, a: Answer)
    requires p.Busy?
  {
    var o := Work(w, p, a);
    Accounts(o.world, Record(h, w, p, a, o.proc), o.proc, p.job.target)
  }

  /** If Docker has a container of this name, it is the only one, and it is an orphan unless the row carries it. */
  lemma OnlyOne(w: World, c: ContainerId, d: DockerId)
    requires WorldOk(w) && d in w.docker && d.name == c
    ensures Orphaned(w, c) <==> !Linked(w, c, d)
  {
  }

  lemma NoneOfName(w: World, c: ContainerId)
    requires forall d :: d in w.docker ==> d.name != c
    ensures !Orphaned(w, c)
  {
  }

  lemma SameOrphans(w: World, w': World, c: ContainerId)
    requires forall d: DockerId :: d.name == c ==> (d in w'.docker <==> d in w.docker)
    requires forall d: DockerId :: d.name == c ==> (Linked(w', c, d) <==> Linked(w, c, d))
    ensures Orphaned(w', c) <==> Orphaned(w, c)
  {
    if Orphaned(w, c) {
      var d :| d in w.docker && d.name == c && !Linked(w, c, d);
      assert d in w'.docker && !Linked(w', c, d);
    }
    if Orphaned(w', c) {
      var d :| d in w'.docker && d.name == c && !Linked(w', c, d);
      assert d in w.docker && !Linked(w, c, d);
    }
  }

  lemma QuietStep(w: World, h: History, p: Proc, a: Answer)
    requires Ready(w, h, p, a) && (p.pc.Mark? || p.pc.Fetch? || p.pc.Mkdir? || p.pc.Finish? || Observes(p.pc))
    ensures StepAccounts(w, h, p, a)
  {
    SameOrphans(w, Work(w, p, a).world, p.job.target);
  }

  lemma RunStep(w: World, h: History, p: Proc, a: Answer)
    requires Ready(w, h, p, a) && (p.pc.FirstStart? || p.pc.DockerStart? || p.pc.DockerStop?)
    ensures StepAccounts(w, h, p, a)
  {
    SameOrphans(w, Work(w, p, a).world, p.job.target);
  }

  lemma CreationStep(w: World, h: History, p: Proc, a: Answer)
    requires Ready(w, h, p, a) && p.pc.DockerCreate?
    ensures StepAccounts(w, h, p, a)
  {
    var c, w' := p.job.target, Work(w, p, a).world;
    if NameTaken(w, c) || a.reply.Refused? {
      assert w' == w;
    } else {
      assert a.newId in w'.docker && a.newId.name == c;
      assert !Linked(w, c, a.newId) by {
        assert c in w.rows ==> RowOk(w.made, c, w.rows[c]);
      }
      NoneOfName(w, c);
    }
  }

  lemma CleanupStep(w: World, h: History, p: Proc, a: Answer)
    requires Ready(w, h, p, a) && p.pc.Cleanup?
    ensures StepAccounts(w, h, p, a)
  {
    var c, d, w' := p.job.target, p.pc.d, Work(w, p, a).world;
    OnlyOne(w, c, d);
    if a.reply.TookEffect() {
      assert forall e :: e in w'.docker ==> e.name != c;
      NoneOfName(w', c);
    }
  }

  lemma RecordingStep(w: World, h: History, p: Proc, a: Answer)
    requires Ready(w, h, p, a) && p.pc.WriteRow?
    ensures StepAccounts(w, h, p, a)
  {
    var c, d, o := p.job.target, p.pc.c.dockerId.value, Work(w, p, a);
    OnlyOne(w, c, d);
    assert o.world.docker == w.docker && DockerOk(o.world);
    if Linked(o.world, c, d) {
      assert forall e :: e in o.world.docker && e.name == c ==> e == d;
    } else {
      assert d in o.world.docker && d.name == c;
    }
  }

  lemma RemovalStep(w: World, h: History, p: Proc, a: Answer)
    requires Ready(w, h, p, a) && p.pc.DockerRemove?
    ensures StepAccounts(w, h, p, a)
  {
    var c, d, w' := p.job.target, p.pc.d, Work(w, p, a).world;
    if d in w.docker {
      OnlyOne(w, c, d);
      assert forall e :: e in w'.docker && e.name == c ==> e in w.docker;
      if a.reply.TookEffect() {
        assert forall e :: e in w'.docker ==> e.name != c;
        NoneOfName(w', c);
      }
    } else {
      SameOrphans(w, w', c);
    }
  }

  lemma DroppingStep(w: World, h: History, p: Proc, a: Answer)
    requires Ready(w, h, p, a) && p.pc.DropRow?
    ensures StepAccounts(w, h, p, a)
  {
    var c, w' := p.job.target, Work(w, p, a).world;
    if Orphaned(w', c) {
      var d :| d in w'.docker && d.name == c && !Linked(w', c, d);
      assert d in w.docker && !Linked(w, c, d);
    }
    if Orphaned(w, c) {
      var d :| d in w.docker && d.name == c && !Linked(w, c, d);
      assert d in w'.docker && !Linked(w', c, d);
    }
  }

  lemma OwnStep(w: World, h: History, p: Proc, a: Answer)
    requires Ready(w, h, p, a)
    ensures StepAccounts(w, h, p, a)
  {
    match p.pc
    case DockerCreate(_) => CreationStep(w, h, p, a);
    case FirstStart(_, _) => RunStep(w, h, p, a);
    case DockerStart(_, _) => RunStep(w, h, p, a);
    case DockerStop(_, _) => RunStep(w, h, p, a);
    case Cleanup(_) => CleanupStep(w, h, p, a);
    case DockerRemove(_) => RemovalStep(w, h, p, a);
    case WriteRow(_, _) => RecordingStep(w, h, p, a);
    case DropRow(_) => DroppingStep(w, h, p, a);
    case _ => QuietStep(w, h, p, a);
  }

  // ---------- every step of the system ----------

  lemma Alone(s: Sys, i: nat)
    requires Inv(s) && i < |s.workers| && s.workers[i].Busy? && Orderly(s.hist, s.workers[i].job.target)
    ensures MakingOn(s.workers, s.workers[i].job.target) <==> Unrecorded(s.workers[i]).Some?
  {
    var c := s.workers[i].job.target;
    if k :| 0 <= k < |s.workers| && Unrecorded(s.workers[k]).Some? && s.workers[k].job.target == c { OneWorker(s, i, k); }
  }

  lemma MakingElsewhere(workers: seq<Proc>, i: nat, p: Proc, c: ContainerId)
    requires i < |workers| && (workers[i].Busy? ==> workers[i].job.target != c) && (p.Busy? ==> p.job.target != c || Unrecorded(p).None?)
    ensures MakingOn(workers[i := p], c) <==> MakingOn(workers, c)
  {
    var after := workers[i := p];
    if k :| 0 <= k < |workers| && Unrecorded(workers[k]).Some? && workers[k].job.target == c { assert after[k] == workers[k]; }
    if k :| 0 <= k < |after| && Unrecorded(after[k]).Some? && after[k].job.target == c { assert after[k] == workers[k]; }
  }

  lemma OwnLaw(s: Sys, i: nat, a: Answer)
    requires Good(s) && CanWork(s, i, a) && OrphanLaw(s, s.workers[i].job.target) && Good(WorkOn(s, i, a))
    ensures OrphanLaw(WorkOn(s, i, a), s.workers[i].job.target)
  {
    var p, t, c := s.workers[i], WorkOn(s, i, a), s.workers[i].job.target;
    if Orderly(s.hist, c) {
      WorkerKnows(s, i);
      assert ProcOk(s.w.made, p);
      Alone(s, i);
      OwnStep(s.w, s.hist, p, a);
      WorkOnProc(s.w, p, a);
      MakingAfter(s, i, a);
    }
  }

  lemma MakingAfter(s: Sys, i: nat, a: Answer)
    requires Inv(s) && i < |s.workers| && s.workers[i].Busy? && Orderly(s.hist, s.workers[i].job.target)
    ensures MakingOn(WorkOn(s, i, a).workers, s.workers[i].job.target) <==> Unrecorded(WorkOn(s, i, a).workers[i]).Some?
  {
    var t, c := WorkOn(s, i, a), s.workers[i].job.target;
    WorkOnProc(s.w, s.workers[i], a);
    if k :| 0 <= k < |t.workers| && Unrecorded(t.workers[k]).Some? && t.workers[k].job.target == c {
      if k != i {
        assert t.workers[k] == s.workers[k];
        OneWorker(s, i, k);
      }
    }
  }

  lemma OtherLaw(s: Sys, i: nat, a: Answer, c: ContainerId)
    requires CanWork(s, i, a) && OrphanLaw(s, c) && c != s.workers[i].job.target
    ensures OrphanLaw(WorkOn(s, i, a), c)
  {
    var t := WorkOn(s, i, a);
    OthersStill(s, i, a, c);
    SameOrphans(s.w, t.w, c);
    WorkOnProc(s.w, s.workers[i], a);
    MakingElsewhere(s.workers, i, t.workers[i], c);
  }

  lemma WorkLaw(s: Sys, i: nat, a: Answer)
    requires Good(s) && CanWork(s, i, a) && OrphansLaw(s) && Good(WorkOn(s, i, a))
    ensures OrphansLaw(WorkOn(s, i, a))
  {
    forall c ensures OrphanLaw(WorkOn(s, i, a), c) {
      assert OrphanLaw(s, c);
      if c == s.workers[i].job.target { OwnLaw(s, i, a); } else { OtherLaw(s, i, a, c); }
    }
  }

  lemma TakeLaw(s: Sys, i: nat)
    requires OrphansLaw(s) && i < |s.workers| && s.workers[i].Idle? && |s.queue| > 0
    ensures OrphansLaw(TakeJob(s, i))
  {
    var t := TakeJob(s, i);
    forall c ensures OrphanLaw(t, c) {
      assert OrphanLaw(s, c);
      MakingElsewhere(s.workers, i, t.workers[i], c);
    }
  }

  lemma ServeLaw(s: Sys, j: JobId, reply: Reply)
    requires Inv(s) && OrphansLaw(s) && j in s.reqs
    ensures OrphansLaw(ServeNext(s, s.reqs[j], reply))
  {
    var t := ServeNext(s, s.reqs[j], reply);
    ServeReach(s, s.reqs[j], reply);
    ServeKeepsOrderly(s, s.reqs[j], reply);
    assert RequestOk(s.reqs[j], s.hist.rowIds);
    forall c ensures OrphanLaw(t, c) {
      assert OrphanLaw(s, c);
      SameOrphans(s.w, t.w, c);
    }
  }

  lemma ServeKeepsOrderly(s: Sys, r: Request, reply: Reply)
    ensures forall c :: Orderly(ServeNext(s, r, reply).hist, c) ==> Orderly(s.hist, c)
  {
  }

  lemma FallLaw(s: Sys)
    requires Good(s) && OrphansLaw(s)
    ensures OrphansLaw(Fall(s))
  {
    var t := Fall(s);
    forall c ensures OrphanLaw(t, c) {
      assert OrphanLaw(s, c);
      if Orderly(s.hist, c) { FallLawOf(s, c); }
    }
  }

  lemma FallLawOf(s: Sys, c: ContainerId)
    requires Good(s) && OrphanLaw(s, c) && Orderly(s.hist, c)
    ensures c in CrashedCreates(s) <==> Orphaned(s.w, c) && MakingOn(s.workers, c)
  {
    if c in CrashedCreates(s) {
      var i :| 0 <= i < |s.workers| && LeavesOrphan(s.w, s.workers[i]) && s.workers[i].job.target == c;
      HeldId(s, i);
      assert Orphaned(s.w, c);
    }
    if MakingOn(s.workers, c) && Orphaned(s.w, c) {
      var i :| 0 <= i < |s.workers| && Unrecorded(s.workers[i]).Some? && s.workers[i].job.target == c;
      HeldId(s, i);
      OnlyOne(s.w, c, Unrecorded(s.workers[i]).value);
      assert LeavesOrphan(s.w, s.workers[i]);
    }
  }

  lemma HeldId(s: Sys, i: nat)
    requires Good(s) && i < |s.workers| && Unrecorded(s.workers[i]).Some? && Orderly(s.hist, s.workers[i].job.target)
    ensures Unrecorded(s.workers[i]).value in s.w.docker && Unrecorded(s.workers[i]).value.name == s.workers[i].job.target
  {
    assert WorkerSound(s, s.workers[i]) && ProcOk(s.w.made, s.workers[i]);
  }

  lemma StepLaw(s: Sys, st: Step)
    requires Good(s) && OrphansLaw(s) && Enabled(s, st)
    ensures OrphansLaw(Apply(s, st))
  {
    match st
    case Serve(j, reply) => ServeLaw(s, j, reply);
    case Take(i) => TakeLaw(s, i);
    case Answered(i, a) =>
      StepGood(s, st);
      WorkLaw(s, i, a);
    case Crash => FallLaw(s);
    case _ => OutsideLaw(s, st);
  }

  lemma OutsideLaw(s: Sys, st: Step)
    requires OrphansLaw(s) && Enabled(s, st) && !st.Serve? && !st.Take? && !st.Answered? && !st.Crash?
    ensures OrphansLaw(Apply(s, st))
  {
    SameLaw(s, Apply(s, st));
  }

  lemma SameLaw(s: Sys, t: Sys)
    requires OrphansLaw(s) && t.w.rows == s.w.rows && t.w.docker.Keys == s.w.docker.Keys && t.workers == s.workers
    requires t.hist.orphans == s.hist.orphans && t.hist.split == s.hist.split && t.hist.unchecked == s.hist.unchecked
    ensures OrphansLaw(t)
  {
    forall c ensures OrphanLaw(t, c) {
      assert OrphanLaw(s, c);
      SameOrphans(s.w, t.w, c);
    }
  }

  lemma {:induction false} RunLaw(s: Sys, run: seq<Step>)
    requires Good(s) && OrphansLaw(s) && Feasible(s, run)
    ensures OrphansLaw(Final(s, run))
    decreases |run|
  {
    if run != [] {
      StepGood(s, run[0]);
      StepLaw(s, run[0]);
      RunLaw(Apply(s, run[0]), run[1..]);
    }
  }

  // ---------- the theorems ----------

  /** Over every run, at every moment at which no CREATE job is at work on a Docker container it has made for it:
      Docker has a container of an orderly container's name that its row does not carry if and only if a CREATE
      job has left one behind: the answer to its creation was lost, its clean-up had no effect, or its row write
      was given up or cut off. */
  lemma OrphansAreAccounted(s: Sys, c: ContainerId)
    requires Reachable(s) && Orderly(s.hist, c) && !MakingOn(s.workers, c)
    ensures c in s.hist.orphans <==> Orphaned(s.w, c)
  {
    var s0, run :| Init(s0) && Feasible(s0, run) && s == Final(s0, run);
    InitGood(s0);
    assert OrphansLaw(s0);
    RunLaw(s0, run);
    assert OrphanLaw(s, c);
  }

  /** In particular when a CREATE job is about to be recorded: it leaves a container behind exactly then. */
  lemma CreateLeavesNothing(s: Sys, i: nat)
    requires Reachable(s) && i < |s.workers| && s.workers[i].Busy? && s.workers[i].pc.Finish? && s.workers[i].job.kind == CreateContainer
    requires Orderly(s.hist, s.workers[i].job.target)
    ensures var c := s.workers[i].job.target;
      && (c in s.hist.orphans <==> exists d :: d in s.w.docker && d.name == c && !Linked(s.w, c, d))
      && (s.workers[i].pc.verdict.None? ==> c !in s.hist.orphans)
  {
    ReachableGood(s);
    Alone(s, i);
    OrphansAreAccounted(s, s.workers[i].job.target);
    assert WorkerSound(s, s.workers[i]);
    if s.workers[i].pc.verdict.None? {
      var c := s.workers[i].job.target;
      OnlyOne(s.w, c, s.w.rows[c].dockerId.value);
    }
  }
}
