/** Serialisability: an interleaved run of the whole system leaves the tables and Docker exactly as
    the jobs leave them when they are run one at a time in the order in which they finish. */
module Serial {
  import opened Domain
  import opened Store
  import opened WorkerSteps
  import opened Protocol
  import opened Invariant
  import opened Accounting
  import opened ContainerTheorems
  import opened RowHistory
  import opened Slices
  import opened Schedules
  import opened Simulation
  import opened Tracking
  import opened JobAnswers
  import opened Projection

  // ---------- the theorem ----------

  predicate AllIdle(s: Sys) { forall i :: 0 <= i < |s.workers| ==> s.workers[i].Idle? }

  function Blank(s: Sys): Book { Book([], seq(|s.workers|, _ => Free)) }

  lemma AllHeard(s: Sys, run: seq<Step>, j: JobId)
    requires Good(s) && AllIdle(s) && Feasible(s, run) && AllIdle(Final(s, run)) && AllOrderly(Final(s, run))
    requires Track(s.w, s, Blank(s)) && Track(s.w, Final(s, run), Schedule(s, run, Blank(s)))
    requires forall k :: 0 <= k < |run| ==> Calm(run[k])
    ensures Given(Schedule(s, run, Blank(s)).done, j) == AnswersTo(j, [], s, run)
  {
    var b, t := Schedule(s, run, Blank(s)), Final(s, run);
    ScheduleHeard(s.w, s, Blank(s), run, j);
    NoneNoted(Blank(s).open, j);
    assert SoFar(Blank(s), j) == [];
    forall i | 0 <= i < |b.open| ensures Noted(b.open[i], j) == [] {
      assert OpenOk(PerformAll(s.w, b.done), t.w, t.workers[i], b.open[i]);
    }
    NoneNoted(b.open, j);
    assert SoFar(b, j) == Given(b.done, j);
  }

  /** Any run without crash in which every container stays orderly, and which starts and ends with all
      workers idle: its container rows, job rows and Docker containers are exactly those that its jobs
      leave when they are run whole, one at a time, in the order in which they finished, each with the
      answers it got. The serial execution stays within the contract of the environment. */
  lemma Serialisable(s: Sys, run: seq<Step>)
    requires Reachable(s) && AllIdle(s) && Feasible(s, run) && AllIdle(Final(s, run))
    requires forall k :: 0 <= k < |run| ==> Calm(run[k])
    requires AllOrderly(Final(s, run))
    ensures var items := Schedule(s, run, Blank(s)).done;
      && AllPlayable(s.w, items)
      && PerformAll(s.w, items) == Final(s, run).w
      && JobOrder(items) == FinishOrder([], s, run)
      && forall j :: Given(items, j) == AnswersTo(j, [], s, run)
  {
    var b := Blank(s);
    ReachableGood(s);
    assert Track(s.w, s, b);
    TrackRun(s.w, s, b, run);
    ScheduleOrder(s.w, s, b, run);
    var t, items := Final(s, run), Schedule(s, run, b).done;
    var serial := PerformAll(s.w, items);
    forall j ensures Given(items, j) == AnswersTo(j, [], s, run) { AllHeard(s, run, j); }
    assert forall c :: !BusyOn(t.workers, c);
    assert forall j :: !Held(t.workers, j);
    forall c ensures SameContainer(serial, t.w, c) { assert !BusyOn(t.workers, c); }
    forall j ensures JobOf(serial, j) == JobOf(t.w, j) { assert !Held(t.workers, j); }
    SameWorlds(serial, t.w);
  }

  // ---------- some of the containers ----------

  /** The kept jobs whose final write is answered during the run, in that order, after the earlier ones. */
  function FinishOrderIn(keep: set<ContainerId>, earlier: seq<JobId>, s: Sys, run: seq<Step>): seq<JobId>
    requires Feasible(s, run)
    decreases |run|
  {
    if run == [] then earlier
    else
      var now := if InPart(s, run[0], keep) then Finishes(s, run[0]) else [];
      FinishOrderIn(keep, earlier + now, Apply(s, run[0]), run[1..])
  }

  predicate InPart(s: Sys, st: Step, keep: set<ContainerId>)
    requires Enabled(s, st)
  {
    st.Answered? ==> s.workers[st.i].job.target in keep
  }

  /** The answers that job j of a kept container gets during the run, after the earlier ones. */
  function AnswersIn(keep: set<ContainerId>, j: JobId, earlier: seq<Answer>, s: Sys, run: seq<Step>): seq<Answer>
    requires Feasible(s, run)
    decreases |run|
  {
    if run == [] then earlier
    else
      var now := if InPart(s, run[0], keep) then Hears(s, run[0], j) else [];
      AnswersIn(keep, j, earlier + now, Apply(s, run[0]), run[1..])
  }

  lemma MirrorSame(s: Sys, g: Sys, st: Step, keep: set<ContainerId>)
    requires Shows(s, g, keep) && Enabled(s, st) && Calm(st) && Mirror(s, st, keep) != [] && Enabled(g, Mirror(s, st, keep)[0])
    ensures var m := Mirror(s, st, keep)[0];
      && Calm(m) && InPart(s, st, keep)
      && Finishes(g, m) == Finishes(s, st) && forall j :: Hears(g, m, j) == Hears(s, st, j)
  {
    if st.Answered? { assert g.workers[st.i] == s.workers[st.i]; }
  }

  lemma MirrorNone(s: Sys, st: Step, keep: set<ContainerId>)
    requires Enabled(s, st) && Mirror(s, st, keep) == []
    ensures InPart(s, st, keep) ==> Finishes(s, st) == [] && forall j :: Hears(s, st, j) == []
  {
  }

  lemma {:induction false} MirrorCalm(s: Sys, run: seq<Step>, keep: set<ContainerId>)
    requires Feasible(s, run) && forall k :: 0 <= k < |run| ==> Calm(run[k])
    ensures forall k :: 0 <= k < |MirrorRun(s, run, keep)| ==> Calm(MirrorRun(s, run, keep)[k])
    decreases |run|
  {
    if run != [] { MirrorCalm(Apply(s, run[0]), run[1..], keep); }
  }

  /** A step of the run leads from s to t, its mirror from g to g2; left of the run's mirror is that of its rest. */
  predicate StepsOn(s: Sys, g: Sys, run: seq<Step>, keep: set<ContainerId>, t: Sys, g2: Sys) {
    && run != [] && Feasible(s, run) && Feasible(g, MirrorRun(s, run, keep)) && t == Apply(s, run[0])
    && var m, part, rest := Mirror(s, run[0], keep), MirrorRun(s, run, keep), MirrorRun(t, run[1..], keep);
       if m == [] then g2 == g && part == rest
       else part != [] && part[0] == m[0] && part[1..] == rest && g2 == Apply(g, m[0])
  }

  lemma MirrorOn(s: Sys, g: Sys, run: seq<Step>, keep: set<ContainerId>) returns (t: Sys, g2: Sys)
    requires Good(s) && Shows(s, g, keep) && run != [] && Feasible(s, run) && Feasible(g, MirrorRun(s, run, keep))
    ensures StepsOn(s, g, run, keep, t, g2) && Good(t) && Shows(t, g2, keep)
    ensures Feasible(g2, MirrorRun(t, run[1..], keep))
  {
    t := Apply(s, run[0]);
    var m := Mirror(s, run[0], keep);
    StepGood(s, run[0]);
    StepMirrored(s, g, run[0], keep);
    g2 := if m == [] then g else Apply(g, m[0]);
    assert m != [] ==> (m + MirrorRun(t, run[1..], keep))[1..] == MirrorRun(t, run[1..], keep);
  }

  lemma FinishesOn(s: Sys, g: Sys, run: seq<Step>, keep: set<ContainerId>, ids: seq<JobId>, t: Sys, g2: Sys) returns (now: seq<JobId>)
    requires StepsOn(s, g, run, keep, t, g2) && Shows(s, g, keep) && Calm(run[0])
    ensures FinishOrder(ids, g, MirrorRun(s, run, keep)) == FinishOrder(ids + now, g2, MirrorRun(t, run[1..], keep))
    ensures FinishOrderIn(keep, ids, s, run) == FinishOrderIn(keep, ids + now, t, run[1..])
  {
    now := if InPart(s, run[0], keep) then Finishes(s, run[0]) else [];
    assert ids + [] == ids;
    if Mirror(s, run[0], keep) == [] { MirrorNone(s, run[0], keep); } else { MirrorSame(s, g, run[0], keep); }
  }

  lemma {:induction false} MirrorFinishes(s: Sys, g: Sys, run: seq<Step>, keep: set<ContainerId>, ids: seq<JobId>)
    requires Good(s) && Shows(s, g, keep) && Feasible(s, run) && forall k :: 0 <= k < |run| ==> Calm(run[k])
    requires Feasible(g, MirrorRun(s, run, keep))
    ensures FinishOrder(ids, g, MirrorRun(s, run, keep)) == FinishOrderIn(keep, ids, s, run)
    decreases |run|
  {
    if run != [] {
      var t, g2 := MirrorOn(s, g, run, keep);
      var now := FinishesOn(s, g, run, keep, ids, t, g2);
      var rest := run[1..];
      assert forall k :: 0 <= k < |rest| ==> Calm(rest[k]);
      MirrorFinishes(t, g2, rest, keep, ids + now);
    }
  }

  lemma HearsOn(s: Sys, g: Sys, run: seq<Step>, keep: set<ContainerId>, j: JobId, log: seq<Answer>, t: Sys, g2: Sys)
    returns (now: seq<Answer>)
    requires StepsOn(s, g, run, keep, t, g2) && Shows(s, g, keep) && Calm(run[0])
    ensures AnswersTo(j, log, g, MirrorRun(s, run, keep)) == AnswersTo(j, log + now, g2, MirrorRun(t, run[1..], keep))
    ensures AnswersIn(keep, j, log, s, run) == AnswersIn(keep, j, log + now, t, run[1..])
  {
    now := if InPart(s, run[0], keep) then Hears(s, run[0], j) else [];
    assert log + [] == log;
    if Mirror(s, run[0], keep) == [] { MirrorNone(s, run[0], keep); } else { MirrorSame(s, g, run[0], keep); }
  }

  lemma {:induction false} MirrorHears(s: Sys, g: Sys, run: seq<Step>, keep: set<ContainerId>, j: JobId, log: seq<Answer>)
    requires Good(s) && Shows(s, g, keep) && Feasible(s, run) && forall k :: 0 <= k < |run| ==> Calm(run[k])
    requires Feasible(g, MirrorRun(s, run, keep))
    ensures AnswersTo(j, log, g, MirrorRun(s, run, keep)) == AnswersIn(keep, j, log, s, run)
    decreases |run|
  {
    if run != [] {
      var t, g2 := MirrorOn(s, g, run, keep);
      var now := HearsOn(s, g, run, keep, j, log, t, g2);
      var rest := run[1..];
      assert forall k :: 0 <= k < |rest| ==> Calm(rest[k]);
      MirrorHears(t, g2, rest, keep, j, log + now);
    }
  }

  /** The same for any set of containers, whatever becomes of the others: if these stay orderly, and no
      worker is busy with them at the start and at the end, then their rows, their jobs and their Docker
      containers are exactly those that their jobs leave when they are run whole, one at a time, in the
      order in which they finished, each with the answers it got, in a world of these containers alone. */
  lemma SerialisableApart(s: Sys, run: seq<Step>, keep: set<ContainerId>) returns (items: seq<Item>)
    requires Reachable(s) && Feasible(s, run) && forall k :: 0 <= k < |run| ==> Calm(run[k])
    requires forall c :: c in keep ==> !BusyOn(s.workers, c) && !BusyOn(Final(s, run).workers, c) && Orderly(Final(s, run).hist, c)
    ensures AllPlayable(OnlyWorld(s.w, keep), items)
    ensures PerformAll(OnlyWorld(s.w, keep), items) == OnlyWorld(Final(s, run).w, keep)
    ensures JobOrder(items) == FinishOrderIn(keep, [], s, run)
    ensures forall j :: Given(items, j) == AnswersIn(keep, j, [], s, run)
  {
    ReachableGood(s);
    var g := NoInterference(s, keep);
    var part := MirrorRun(s, run, keep);
    RunMirrored(s, g, run, keep);
    PartIdle(s, g, keep);
    PartIdle(Final(s, run), Final(g, part), keep);
    MirrorCalm(s, run, keep);
    MirrorFinishes(s, g, run, keep, []);
    Serialisable(g, part);
    items := Schedule(g, part, Blank(g)).done;
    forall j ensures Given(items, j) == AnswersIn(keep, j, [], s, run) { MirrorHears(s, g, run, keep, j, []); }
  }

  lemma PartIdle(s: Sys, g: Sys, keep: set<ContainerId>)
    requires Shows(s, g, keep) && forall c :: c in keep ==> !BusyOn(s.workers, c)
    ensures AllIdle(g)
    ensures (forall c :: c in keep ==> Orderly(s.hist, c)) ==> AllOrderly(g)
  {
    forall i | 0 <= i < |g.workers| ensures g.workers[i].Idle? {
      if g.workers[i].Busy? { assert BusyOn(s.workers, s.workers[i].job.target); }
    }
  }
}
