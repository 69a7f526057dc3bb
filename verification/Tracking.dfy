/** The simulation over whole runs, and the finishing order. */
module Tracking {
  import opened Domain
  import opened Store
  import opened WorkerSteps
  import opened Protocol
  import opened Invariant
  import opened Accounting
  import opened ContainerTheorems
  import opened RowHistory
  import opened Slices
  import opened Schedules
  import opened Simulation

  // ---------- whole runs ----------

  /** The schedule so far can be played from w0 and leaves the serial world the system simulates. */
  ghost predicate Track(w0: World, s: Sys, b: Book) {
    AllPlayable(w0, b.done) && Simulates(PerformAll(w0, b.done), s, b)
  }

  lemma TrackDo(w0: World, t: Sys, b: Book, b': Book, item: Item)
    requires AllPlayable(w0, b.done) && Playable(PerformAll(w0, b.done), item) && b'.done == b.done + [item]
    requires Simulates(Perform(PerformAll(w0, b.done), item), t, b')
    ensures Track(w0, t, b')
  {
    PerformMore(w0, b.done, item);
  }

  lemma SameSim(serial: World, s: Sys, t: Sys, b: Book)
    requires Simulates(serial, s, b) && t.w == s.w && t.workers == s.workers
    ensures Simulates(serial, t, b)
  {
  }

  lemma TrackSaveJob(w0: World, s: Sys, b: Book, j: JobId, reply: Reply)
    requires Inv(s) && Track(w0, s, b) && j in s.reqs && (s.reqs[j].stage.Insert? || s.reqs[j].stage.NewJob?)
    ensures Track(w0, SaveJob(s, s.reqs[j], reply), NoteServe(b, s.reqs[j], reply))
  {
    var r, serial := s.reqs[j], PerformAll(w0, b.done);
    assert r.job.id == j && !Held(s.workers, j) && j !in s.w.jobs;
    assert JobOf(serial, j) == JobOf(s.w, j);
    if reply.TookEffect() {
      SimPublished(serial, s, b, r);
      SameSim(Perform(serial, AddJob(r.job)), Publish(s, r), SaveJob(s, r, reply), Do(b, AddJob(r.job)));
      TrackDo(w0, SaveJob(s, r, reply), b, Do(b, AddJob(r.job)), AddJob(r.job));
    } else {
      SameSim(serial, s, Leave(s, r), b);
    }
  }

  lemma TrackSaveRow(w0: World, s: Sys, b: Book, j: JobId, reply: Reply)
    requires Inv(s) && Track(w0, s, b) && j in s.reqs && s.reqs[j].stage.NewRow?
    ensures Track(w0, SaveRow(s, s.reqs[j], s.reqs[j].stage.row, reply), NoteServe(b, s.reqs[j], reply))
  {
    var r, row, serial := s.reqs[j], s.reqs[j].stage.row, PerformAll(w0, b.done);
    if reply.TookEffect() {
      FoundAlone(s, r);
      assert RequestOk(r, s.hist.rowIds) && row.id !in s.w.rows;
      assert SameContainer(serial, s.w, row.id);
      SimFound(serial, s, b, r);
      SameSim(Perform(serial, AddRow(row)), Found(s, r, row), SaveRow(s, r, row, reply), Do(b, AddRow(row)));
      TrackDo(w0, SaveRow(s, r, row, reply), b, Do(b, AddRow(row)), AddRow(row));
    } else {
      SameSim(serial, s, Leave(s, r), b);
    }
  }

  /** The other stages of a request touch neither the tables nor the workers. */
  lemma TrackGuarded(w0: World, s: Sys, b: Book, r: Request, reply: Reply)
    requires Track(w0, s, b) && !r.stage.Insert? && !r.stage.NewJob? && !r.stage.NewRow?
    ensures Track(w0, ServeNext(s, r, reply), b) && NoteServe(b, r, reply) == b
  {
    SameSim(PerformAll(w0, b.done), s, ServeNext(s, r, reply), b);
  }

  lemma TrackAnswered(w0: World, s: Sys, b: Book, i: nat, a: Answer)
    requires CanWork(s, i, a) && AllOrderly(s) && Track(w0, s, b)
    ensures Track(w0, WorkOn(s, i, a), NoteAnswer(b, s, i, a))
  {
    var serial := PerformAll(w0, b.done);
    if s.workers[i].pc.Finish? {
      SimFinished(serial, s, b, i, a);
      TrackDo(w0, WorkOn(s, i, a), b, NoteAnswer(b, s, i, a), RunJob(b.open[i].job, b.open[i].log + [Reply(a)]));
    } else {
      SimAnswered(serial, s, b, i, a);
    }
  }

  lemma TrackHalts(w0: World, s: Sys, b: Book, d: DockerId)
    requires Inv(s) && AllOrderly(s) && Track(w0, s, b) && d in s.w.docker
    ensures Track(w0, s.(w := Halt(s.w, d)), NoteHalt(b, s, d))
  {
    var serial, h := PerformAll(w0, b.done), Holder(s.workers, d.name);
    if h < |s.workers| {
      SimStopsHeld(serial, s, b, d, h);
    } else {
      assert SameContainer(serial, s.w, d.name);
      SimStopsFree(serial, s, b, d);
      TrackDo(w0, s.(w := Halt(s.w, d)), b, Do(b, Stop(d)), Stop(d));
    }
  }

  lemma TrackCleaned(w0: World, s: Sys, b: Book)
    requires Placed(s) && Track(w0, s, b)
    ensures Track(w0, s.(w := s.w.(jobs := DeleteExpired(s.w.jobs, s.clock))), Do(b, Expire(s.clock)))
  {
    SimExpired(PerformAll(w0, b.done), s, b);
    TrackDo(w0, s.(w := s.w.(jobs := DeleteExpired(s.w.jobs, s.clock))), b, Do(b, Expire(s.clock)), Expire(s.clock));
  }

  lemma TrackPool(w0: World, s: Sys, b: Book, st: Step)
    requires Good(s) && AllOrderly(s) && Track(w0, s, b) && Enabled(s, st) && (st.Take? || st.Answered? || st.Halts?)
    ensures Track(w0, Apply(s, st), Note(s, st, b))
  {
    match st
    case Take(i) => SimTaken(PerformAll(w0, b.done), s, b, i);
    case Answered(i, a) => TrackAnswered(w0, s, b, i, a);
    case Halts(d) => TrackHalts(w0, s, b, d);
  }

  /** Each step of a process that stays up keeps the schedule so far a match of the system. */
  lemma TrackStep(w0: World, s: Sys, b: Book, st: Step)
    requires Good(s) && AllOrderly(s) && Track(w0, s, b) && Enabled(s, st) && Calm(st)
    ensures Track(w0, Apply(s, st), Note(s, st, b))
  {
    if st.Serve? {
      var r := s.reqs[st.id];
      if r.stage.Insert? || r.stage.NewJob? { TrackSaveJob(w0, s, b, st.id, st.reply); }
      else if r.stage.NewRow? { TrackSaveRow(w0, s, b, st.id, st.reply); }
      else { TrackGuarded(w0, s, b, r, st.reply); }
    } else if st.Take? || st.Answered? || st.Halts? {
      TrackPool(w0, s, b, st);
    } else if st.Clean? {
      if st.reply.TookEffect() { TrackCleaned(w0, s, b); }
    }
  }

  /** The invariant that no step reorders: a run has been orderly if it ends orderly. */
  lemma OrderlySoFar(s: Sys, run: seq<Step>)
    requires Feasible(s, run) && AllOrderly(Final(s, run))
    ensures AllOrderly(s)
  {
    forall c ensures c !in s.hist.split && c !in s.hist.unchecked { OrderlyBefore(s, run, c); }
  }

  lemma SameCrew(s: Sys, st: Step)
    requires Enabled(s, st)
    ensures |Apply(s, st).workers| == |s.workers|
  {
    match st
    case Serve(j, reply) => ServeReach(s, s.reqs[j], reply);
    case _ =>
  }

  function Schedule(s: Sys, run: seq<Step>, b: Book): (b': Book)
    requires Feasible(s, run) && |b.open| == |s.workers|
    decreases |run|
  {
    if run == [] then b
    else
      SameCrew(s, run[0]);
      Schedule(Apply(s, run[0]), run[1..], Note(s, run[0], b))
  }

  lemma {:induction false} TrackRun(w0: World, s: Sys, b: Book, run: seq<Step>)
    requires Good(s) && Track(w0, s, b) && Feasible(s, run) && AllOrderly(Final(s, run))
    requires forall k :: 0 <= k < |run| ==> Calm(run[k])
    ensures Track(w0, Final(s, run), Schedule(s, run, b))
    decreases |run|
  {
    if run != [] {
      OrderlySoFar(s, run);
      TrackStep(w0, s, b, run[0]);
      StepGood(s, run[0]);
      SameCrew(s, run[0]);
      TrackRun(w0, Apply(s, run[0]), Note(s, run[0], b), run[1..]);
    }
  }

  // ---------- the finishing order ----------

  function Finishes(s: Sys, st: Step): seq<JobId>
    requires Enabled(s, st)
  {
    if st.Answered? && s.workers[st.i].pc.Finish? then [s.workers[st.i].job.id] else []
  }

  /** The jobs whose final write is answered during the run, in that order, after the earlier ones. */
  function FinishOrder(earlier: seq<JobId>, s: Sys, run: seq<Step>): seq<JobId>
    requires Feasible(s, run)
    decreases |run|
  {
    if run == [] then earlier else FinishOrder(earlier + Finishes(s, run[0]), Apply(s, run[0]), run[1..])
  }

  function JobOrder(items: seq<Item>): seq<JobId> {
    if items == [] then []
    else
      var last := items[|items| - 1];
      JobOrder(items[..|items| - 1]) + (if last.RunJob? then [last.job.id] else [])
  }

  lemma JobOrderMore(items: seq<Item>, item: Item)
    ensures JobOrder(items + [item]) == JobOrder(items) + (if item.RunJob? then [item.job.id] else [])
  {
    assert (items + [item])[..|items|] == items;
  }

  lemma NoteOrder(w0: World, s: Sys, b: Book, st: Step)
    requires Track(w0, s, b) && Enabled(s, st)
    ensures JobOrder(Note(s, st, b).done) == JobOrder(b.done) + Finishes(s, st)
  {
    match st
    case Answered(i, a) =>
      assert OpenOk(PerformAll(w0, b.done), s.w, s.workers[i], b.open[i]);
      AnswerOrder(b, s, i, a);
    case Serve(j, reply) => ServeOrder(b, s.reqs[j], reply);
    case Halts(d) => JobOrderMore(b.done, Stop(d));
    case Clean(_) => JobOrderMore(b.done, Expire(s.clock));
    case _ =>
  }

  lemma AnswerOrder(b: Book, s: Sys, i: nat, a: Answer)
    requires i < |s.workers| == |b.open| && s.workers[i].Busy? && b.open[i].Open? && b.open[i].job.id == s.workers[i].job.id
    ensures JobOrder(NoteAnswer(b, s, i, a).done) ==
              JobOrder(b.done) + (if s.workers[i].pc.Finish? then [s.workers[i].job.id] else [])
  {
    JobOrderMore(b.done, RunJob(b.open[i].job, b.open[i].log + [Reply(a)]));
  }

  lemma ServeOrder(b: Book, r: Request, reply: Reply)
    ensures JobOrder(NoteServe(b, r, reply).done) == JobOrder(b.done)
  {
    JobOrderMore(b.done, AddJob(r.job));
    if r.stage.NewRow? { JobOrderMore(b.done, AddRow(r.stage.row)); }
  }

  lemma {:induction false} ScheduleOrder(w0: World, s: Sys, b: Book, run: seq<Step>)
    requires Good(s) && Track(w0, s, b) && Feasible(s, run) && AllOrderly(Final(s, run))
    requires forall k :: 0 <= k < |run| ==> Calm(run[k])
    ensures JobOrder(Schedule(s, run, b).done) == FinishOrder(JobOrder(b.done), s, run)
    decreases |run|
  {
    if run != [] {
      var t, b' := TrackOn(w0, s, b, run);
      ScheduleOrder(w0, t, b', run[1..]);
    }
  }

  lemma TrackOn(w0: World, s: Sys, b: Book, run: seq<Step>) returns (t: Sys, b': Book)
    requires Good(s) && Track(w0, s, b) && run != [] && Feasible(s, run) && AllOrderly(Final(s, run)) && Calm(run[0])
    ensures t == Apply(s, run[0]) && b' == Note(s, run[0], b)
    ensures Good(t) && Track(w0, t, b') && Feasible(t, run[1..]) && Final(s, run) == Final(t, run[1..])
    ensures Schedule(s, run, b) == Schedule(t, run[1..], b')
    ensures JobOrder(b'.done) == JobOrder(b.done) + Finishes(s, run[0])
    ensures FinishOrder(JobOrder(b.done), s, run) == FinishOrder(JobOrder(b'.done), t, run[1..])
  {
    NoteOrder(w0, s, b, run[0]);
    OrderlySoFar(s, run);
    TrackStep(w0, s, b, run[0]);
    StepGood(s, run[0]);
    SameCrew(s, run[0]);
    t, b' := Apply(s, run[0]), Note(s, run[0], b);
  }
}
