/** How container rows change: the life cycle of a row, which steps can touch it, and that a job
    changes its row completely or not at all. */
module RowHistory {
  import opened Domain
  import opened Store
  import opened WorkerSteps
  import opened Protocol
  import opened Invariant
  import opened Lifecycle
  import opened Containers
  import opened Accounting
  import opened ContainerTheorems

  /** The step answers the row write of a worker processing a job of container c. */
  predicate WritesRow(s: Sys, st: Step, c: ContainerId) {
    && st.Answered? && st.i < |s.workers| && s.workers[st.i].Busy? && s.workers[st.i].job.target == c
    && (s.workers[st.i].pc.WriteRow? || s.workers[st.i].pc.DropRow?)
  }

  predicate FoundsRow(s: Sys, st: Step, c: ContainerId) {
    st.Serve? && st.id in s.reqs && s.reqs[st.id].stage.NewRow? && s.reqs[st.id].job.target == c
  }

  /** Nothing else touches a row, and a row is founded only where there is none. */
  lemma StepRow(s: Sys, st: Step, c: ContainerId)
    requires Good(s) && Enabled(s, st)
    ensures FoundsRow(s, st, c) ==> c !in s.w.rows
    ensures !WritesRow(s, st, c) && !FoundsRow(s, st, c) ==> RowOf(Apply(s, st).w, c) == RowOf(s.w, c)
  {
    match st
    case Serve(j, reply) =>
      ServeReach(s, s.reqs[j], reply);
      assert RequestOk(s.reqs[j], s.hist.rowIds);
    case Answered(i, a) =>
      assert ProcOk(s.w.made, s.workers[i]);
      WorkOnRows(s.w, s.workers[i], a);
    case _ =>
  }

  /** From one state to the next, the row keeps its owner, leaves Created for good, keeps having a
      Docker ID, and keeps this very ID if the container is orderly. */
  predicate RowForward(row: Container, later: Container, orderly: bool) {
    && later.id == row.id && later.owner == row.owner && later.createdAt == row.createdAt
    && (row.status != Created ==> later.status != Created)
    && (row.dockerId.Some? ==> later.dockerId.Some? && (orderly ==> later.dockerId == row.dockerId))
  }

  lemma StepRowForward(s: Sys, st: Step, c: ContainerId)
    requires Good(s) && Enabled(s, st) && c in s.w.rows && c in Apply(s, st).w.rows
    ensures RowForward(s.w.rows[c], Apply(s, st).w.rows[c], Orderly(s.hist, c))
  {
    StepRow(s, st, c);
    if WritesRow(s, st, c) { WriteForward(s, st.i, st.a); }
  }

  lemma WriteForward(s: Sys, i: nat, a: Answer)
    requires Good(s) && i < |s.workers| && s.workers[i].Busy? && (s.workers[i].pc.WriteRow? || s.workers[i].pc.DropRow?)
    ensures var c, w' := s.workers[i].job.target, Work(s.w, s.workers[i], a).world;
      c in s.w.rows && c in w'.rows ==> RowForward(s.w.rows[c], w'.rows[c], Orderly(s.hist, c))
  {
    var p := s.workers[i];
    assert ProcOk(s.w.made, p) && WorkerSound(s, p);
    assert p.job.target in s.w.rows ==> RowOk(s.w.made, p.job.target, s.w.rows[p.job.target]);
  }

  /** A row disappears only through a DELETE job; an orderly one does so only when it does not say
      Running, unless a guard passed on a status that was out of date. */
  lemma RowRemoval(s: Sys, st: Step, c: ContainerId)
    requires Good(s) && Enabled(s, st) && c in s.w.rows && c !in Apply(s, st).w.rows
    ensures st.Answered? && s.workers[st.i].job.target == c && s.workers[st.i].job.kind == DeleteContainer
    ensures Orderly(s.hist, c) && c !in s.hist.stale ==> s.w.rows[c].status != Running
  {
    StepRow(s, st, c);
    var p := s.workers[st.i];
    WorkOnRows(s.w, p, st.a);
    assert ProcOk(s.w.made, p) && WorkerOk(s.w.jobs, p);
    assert JobSound(s, s.w.jobs[p.job.id]);
  }

  // ---------- over whole runs ----------

  predicate Absent(s: Sys, c: ContainerId) {
    c in s.hist.rowIds && c !in s.w.rows && forall j :: j in s.reqs && s.reqs[j].stage.NewRow? ==> s.reqs[j].job.target != c
  }

  lemma NoFounder(s: Sys, st: Step, c: ContainerId)
    requires Enabled(s, st) && c in s.hist.rowIds && forall j :: j in s.reqs && s.reqs[j].stage.NewRow? ==> s.reqs[j].job.target != c
    ensures var t := Apply(s, st);
      c in t.hist.rowIds && (forall j :: j in t.reqs && t.reqs[j].stage.NewRow? ==> t.reqs[j].job.target != c)
  {
    match st
    case Serve(j, reply) => ServeReach(s, s.reqs[j], reply);
    case Answered(i, a) =>
    case _ =>
  }

  lemma StepAbsent(s: Sys, st: Step, c: ContainerId)
    requires Good(s) && Enabled(s, st) && Absent(s, c)
    ensures Absent(Apply(s, st), c)
  {
    StepRow(s, st, c);
    NoFounder(s, st, c);
    if WritesRow(s, st, c) { WorkOnRows(s.w, s.workers[st.i], st.a); }
  }

  lemma {:induction false} AbsentStays(s: Sys, run: seq<Step>, c: ContainerId)
    requires Good(s) && Feasible(s, run) && Absent(s, c)
    ensures c !in Final(s, run).w.rows
    decreases |run|
  {
    if run != [] {
      StepGood(s, run[0]);
      StepAbsent(s, run[0], c);
      AbsentStays(Apply(s, run[0]), run[1..], c);
    }
  }

  lemma {:induction false} OrderlyBefore(s: Sys, run: seq<Step>, c: ContainerId)
    requires Feasible(s, run) && Orderly(Final(s, run).hist, c)
    ensures Orderly(s.hist, c)
    decreases |run|
  {
    if run != [] {
      OrderlyBefore(Apply(s, run[0]), run[1..], c);
      OrderlyStep(s, run[0], c);
    }
  }

  lemma OrderlyStep(s: Sys, st: Step, c: ContainerId)
    requires Enabled(s, st) && Orderly(Apply(s, st).hist, c)
    ensures Orderly(s.hist, c)
  {
    match st
    case Serve(j, reply) => OrderlyServe(s, s.reqs[j], reply, c);
    case Answered(i, a) =>
    case _ =>
  }

  lemma OrderlyServe(s: Sys, r: Request, reply: Reply, c: ContainerId)
    requires Orderly(ServeNext(s, r, reply).hist, c)
    ensures Orderly(s.hist, c)
  {
  }

  /** Over any run, with crashes and restarts: as long as the row exists it keeps its owner, never
      returns to Created, keeps having a Docker ID once it has one, and on a container that stayed
      orderly keeps this very ID. */
  lemma {:induction false} RunRowForward(s: Sys, run: seq<Step>, c: ContainerId)
    requires Good(s) && Feasible(s, run) && c in s.w.rows && c in Final(s, run).w.rows
    ensures RowForward(s.w.rows[c], Final(s, run).w.rows[c], Orderly(Final(s, run).hist, c))
    decreases |run|
  {
    if run != [] {
      var t := Apply(s, run[0]);
      StepGood(s, run[0]);
      if c !in t.w.rows {
        RemovedIsAbsent(s, run[0], c);
        AbsentStays(t, run[1..], c);
      } else {
        StepRowForward(s, run[0], c);
        RunRowForward(t, run[1..], c);
        if Orderly(Final(s, run).hist, c) {
          OrderlyBefore(s, run, c);
        }
      }
    }
  }

  lemma RemovedIsAbsent(s: Sys, st: Step, c: ContainerId)
    requires Good(s) && Enabled(s, st) && c in s.w.rows && c !in Apply(s, st).w.rows
    ensures Absent(Apply(s, st), c)
  {
    RowRemoval(s, st, c);
  }

  // ---------- a row at rest ----------

  predicate BusyOn(workers: seq<Proc>, c: ContainerId) {
    exists i :: 0 <= i < |workers| && workers[i].Busy? && workers[i].job.target == c
  }

  /** At no moment of the run is a worker busy with a job of the container. */
  predicate Undisturbed(s: Sys, run: seq<Step>, c: ContainerId)
    requires Feasible(s, run)
    decreases |run|
  {
    !BusyOn(s.workers, c) && (run != [] ==> Undisturbed(Apply(s, run[0]), run[1..], c))
  }

  /** A row stays exactly as it is until a worker is busy with a job of its container again, through
      any number of requests, clean-ups, crashes and restarts. */
  lemma {:induction false} RowPersists(s: Sys, run: seq<Step>, c: ContainerId)
    requires Good(s) && Feasible(s, run) && Undisturbed(s, run, c)
    requires c in s.w.rows || Absent(s, c)
    ensures RowOf(Final(s, run).w, c) == RowOf(s.w, c)
    decreases |run|
  {
    if run != [] {
      StepRow(s, run[0], c);
      assert !WritesRow(s, run[0], c);
      assert c in s.w.rows || !FoundsRow(s, run[0], c);
      StepGood(s, run[0]);
      if Absent(s, c) { StepAbsent(s, run[0], c); }
      RowPersists(Apply(s, run[0]), run[1..], c);
    }
  }
}
