/** The interleaved system simulates the serial world of its schedule, step by step. */
module Simulation {
  import opened Domain
  import opened Store
  import opened WorkerSteps
  import opened Protocol
  import opened Invariant
  import opened Lifecycle
  import opened Accounting
  import opened RowHistory
  import opened Slices
  import opened Schedules

  // ---------- the simulation ----------

  /** Started in any world that agrees with v on the job's slice, what the worker has met so far
      brings it to where it is, with the slice as it is, and nothing else touched. */
  ghost predicate Follows(v: World, op: Open, w: World, p: Proc)
    requires op.Open? && p.Busy?
  {
    var o := Replay(Begin(v, op.job), op.log);
    && Legal(Begin(v, op.job), op.log)
    && o.proc == p && SameSlice(o.world, w, p.job.target, p.job.id) && OnlyTouches(v, o.world, p.job.target, p.job.id)
  }

  ghost predicate OpenOk(serial: World, w: World, p: Proc, op: Open) {
    if p.Idle? then op.Free?
    else
      && op.Open? && op.job.id == p.job.id && op.job.target == p.job.target
      && op.job.status == JobPending && JobOf(serial, p.job.id) == Some(op.job)
      && forall v :: SameSlice(v, serial, p.job.target, p.job.id) ==> Follows(v, op, w, p)
  }

  ghost predicate Simulates(serial: World, s: Sys, b: Book) {
    && |b.open| == |s.workers|
    && (forall c :: !BusyOn(s.workers, c) ==> SameContainer(serial, s.w, c))
    && (forall j :: !Held(s.workers, j) ==> JobOf(serial, j) == JobOf(s.w, j))
    && (forall i :: 0 <= i < |s.workers| ==> OpenOk(serial, s.w, s.workers[i], b.open[i]))
  }

  /** A change of the serial world and of the system outside a worker's slice is none of its business. */
  lemma OpenStays(serial: World, serial': World, w: World, w': World, p: Proc, op: Open)
    requires OpenOk(serial, w, p, op)
    requires p.Busy? ==> SameSlice(serial, serial', p.job.target, p.job.id) && SameSlice(w, w', p.job.target, p.job.id)
    ensures OpenOk(serial', w', p, op)
  {
    if p.Busy? {
      forall v | SameSlice(v, serial', p.job.target, p.job.id) ensures Follows(v, op, w', p) {
        assert SameSlice(v, serial, p.job.target, p.job.id);
        assert Follows(v, op, w, p);
      }
    }
  }

  lemma OpenTaken(serial: World, w: World, job: Job)
    requires SameSlice(serial, w, job.target, job.id) && Image(w.jobs, job)
    ensures OpenOk(serial, w, Busy(job, Mark, RowOf(w, job.target)), Open(job, []))
  {
  }

  lemma OpenAnswered(serial: World, w: World, p: Proc, op: Open, a: Answer)
    requires OpenOk(serial, w, p, op) && p.Busy? && !p.pc.Finish? && ProcOk(w.made, p) && Allowed(w, p.pc, a)
    ensures var o := Work(w, p, a); OpenOk(serial, o.world, o.proc, op.(log := op.log + [Reply(a)]))
  {
    var o, op' := Work(w, p, a), op.(log := op.log + [Reply(a)]);
    WorkOnProc(w, p, a);
    forall v | SameSlice(v, serial, p.job.target, p.job.id) ensures Follows(v, op', o.world, o.proc) {
      assert Follows(v, op, w, p);
      var u := Replay(Begin(v, op.job), op.log);
      LastEvent(Begin(v, op.job), op.log, Reply(a));
      AllowedLocal(u.world, w, p, a);
      WorkLocal(u.world, w, p, a);
      TouchesTwice(v, u.world, Work(u.world, p, a).world, p.job.target, p.job.id);
    }
  }

  lemma OpenStopped(serial: World, w: World, p: Proc, op: Open, d: DockerId)
    requires OpenOk(serial, w, p, op) && p.Busy? && p.job.target == d.name && d in w.docker
    ensures OpenOk(serial, Halt(w, d), p, op.(log := op.log + [Stops(d)]))
  {
    var op' := op.(log := op.log + [Stops(d)]);
    forall v | SameSlice(v, serial, p.job.target, p.job.id) ensures Follows(v, op', Halt(w, d), p) {
      assert Follows(v, op, w, p);
      var u := Replay(Begin(v, op.job), op.log);
      LastEvent(Begin(v, op.job), op.log, Stops(d));
      HaltLocal(u.world, w, d, p.job.id);
      TouchesTwice(v, u.world, Halt(u.world, d), p.job.target, p.job.id);
    }
  }

  /** The last answer closes the job: run alone from the serial world, it ends as it ends here. */
  lemma OpenFinished(serial: World, w: World, p: Proc, op: Open, a: Answer)
    requires OpenOk(serial, w, p, op) && p.Busy? && p.pc.Finish? && ProcOk(w.made, p) && Allowed(w, p.pc, a)
    ensures var u := Replay(Begin(serial, op.job), op.log + [Reply(a)]);
      && Legal(Begin(serial, op.job), op.log + [Reply(a)])
      && u.proc.Idle? && SameSlice(u.world, Work(w, p, a).world, p.job.target, p.job.id)
      && OnlyTouches(serial, u.world, p.job.target, p.job.id)
  {
    assert Follows(serial, op, w, p);
    var u := Replay(Begin(serial, op.job), op.log);
    LastEvent(Begin(serial, op.job), op.log, Reply(a));
    AllowedLocal(u.world, w, p, a);
    WorkLocal(u.world, w, p, a);
    TouchesTwice(serial, u.world, Work(u.world, p, a).world, p.job.target, p.job.id);
  }

  // ---------- each step keeps the simulation ----------

  predicate AllOrderly(s: Sys) { s.hist.split == {} && s.hist.unchecked == {} }

  lemma AnsweredSlices(s: Sys, i: nat, a: Answer)
    requires CanWork(s, i, a)
    ensures OnlyTouches(s.w, WorkOn(s, i, a).w, s.workers[i].job.target, s.workers[i].job.id)
  {
    assert ProcOk(s.w.made, s.workers[i]);
    WorkLocal(s.w, s.w, s.workers[i], a);
  }

  lemma OtherWorker(s: Sys, i: nat, k: nat)
    requires Inv(s) && AllOrderly(s) && i < |s.workers| && k < |s.workers| && i != k && s.workers[i].Busy? && s.workers[k].Busy?
    ensures s.workers[i].job.target != s.workers[k].job.target && s.workers[i].job.id != s.workers[k].job.id
  {
    if s.workers[i].job.target == s.workers[k].job.target { OneWorker(s, i, k); }
  }

  lemma SimAnswered(serial: World, s: Sys, b: Book, i: nat, a: Answer)
    requires CanWork(s, i, a) && AllOrderly(s) && Simulates(serial, s, b) && !s.workers[i].pc.Finish?
    ensures Simulates(serial, WorkOn(s, i, a), Jot(b, i, Reply(a)))
  {
    var p, t, b' := s.workers[i], WorkOn(s, i, a), Jot(b, i, Reply(a));
    AnsweredSlices(s, i, a);
    WorkOnProc(s.w, p, a);
    assert OpenOk(serial, s.w, p, b.open[i]) && ProcOk(s.w.made, p);
    OpenAnswered(serial, s.w, p, b.open[i], a);
    forall k | 0 <= k < |t.workers| && k != i ensures OpenOk(serial, t.w, t.workers[k], b'.open[k]) {
      assert OpenOk(serial, s.w, s.workers[k], b.open[k]);
      if s.workers[k].Busy? { OtherWorker(s, i, k); }
      OpenStays(serial, serial, s.w, t.w, s.workers[k], b.open[k]);
    }
    forall c | !BusyOn(t.workers, c) ensures SameContainer(serial, t.w, c) {
      assert t.workers[i].Busy? && c != p.job.target;
      SameBusy(s.workers, i, t.workers[i], c);
      assert SameContainer(s.w, t.w, c);
    }
    forall j | !Held(t.workers, j) ensures JobOf(serial, j) == JobOf(t.w, j) {
      assert t.workers[i].Busy? && j != p.job.id;
      HeldBack(s.workers, i, t.workers[i], j);
    }
  }

  lemma SameBusy(workers: seq<Proc>, i: nat, p': Proc, c: ContainerId)
    requires i < |workers| && workers[i].Busy? && c != workers[i].job.target
    ensures BusyOn(workers, c) ==> BusyOn(workers[i := p'], c)
  {
    if BusyOn(workers, c) {
      var k :| 0 <= k < |workers| && workers[k].Busy? && workers[k].job.target == c;
      assert workers[i := p'][k] == workers[k];
    }
  }

  lemma HeldBack(workers: seq<Proc>, i: nat, p': Proc, j: JobId)
    requires i < |workers| && workers[i].Busy? && j != workers[i].job.id
    ensures Held(workers, j) ==> Held(workers[i := p'], j)
  {
    if Held(workers, j) {
      var k :| 0 <= k < |workers| && workers[k].Busy? && workers[k].job.id == j;
      assert workers[i := p'][k] == workers[k];
    }
  }

  lemma SimFinished(serial: World, s: Sys, b: Book, i: nat, a: Answer)
    requires CanWork(s, i, a) && AllOrderly(s) && Simulates(serial, s, b) && s.workers[i].pc.Finish?
    ensures var b' := Close(Jot(b, i, Reply(a)), i); var item := RunJob(b.open[i].job, b.open[i].log + [Reply(a)]);
      && b'.done == b.done + [item]
      && Playable(serial, item)
      && Simulates(Perform(serial, item), WorkOn(s, i, a), b')
  {
    var p, t, b' := s.workers[i], WorkOn(s, i, a), Close(Jot(b, i, Reply(a)), i);
    AnsweredSlices(s, i, a);
    WorkOnProc(s.w, p, a);
    assert OpenOk(serial, s.w, p, b.open[i]) && ProcOk(s.w.made, p);
    OpenFinished(serial, s.w, p, b.open[i], a);
    var serial' := Replay(Begin(serial, b.open[i].job), b.open[i].log + [Reply(a)]).world;
    forall k | 0 <= k < |t.workers| && k != i ensures OpenOk(serial', t.w, t.workers[k], b'.open[k]) {
      assert OpenOk(serial, s.w, s.workers[k], b.open[k]);
      if s.workers[k].Busy? { OtherWorker(s, i, k); }
      OpenStays(serial, serial', s.w, t.w, s.workers[k], b.open[k]);
    }
    forall c | !BusyOn(t.workers, c) ensures SameContainer(serial', t.w, c) {
      if c != p.job.target {
        SameBusy(s.workers, i, t.workers[i], c);
        assert SameContainer(serial, s.w, c) && SameContainer(s.w, t.w, c) && SameContainer(serial, serial', c);
      }
    }
    forall j | !Held(t.workers, j) ensures JobOf(serial', j) == JobOf(t.w, j) {
      if j != p.job.id { HeldBack(s.workers, i, t.workers[i], j); }
    }
  }

  lemma SimTaken(serial: World, s: Sys, b: Book, i: nat)
    requires Inv(s) && AllOrderly(s) && Simulates(serial, s, b)
    requires s.phase == Up && i < |s.workers| && s.workers[i].Idle? && |s.queue| > 0
    ensures Simulates(serial, TakeJob(s, i), b.(open := b.open[i := Open(s.queue[0], [])]))
  {
    var t, job := TakeJob(s, i), s.queue[0];
    var b' := b.(open := b.open[i := Open(job, [])]);
    TakenAlone(s, i);
    OpenTaken(serial, s.w, job);
    forall k | 0 <= k < |t.workers| ensures OpenOk(serial, t.w, t.workers[k], b'.open[k]) {
      if k != i { assert OpenOk(serial, s.w, s.workers[k], b.open[k]); }
    }
    forall c | !BusyOn(t.workers, c) ensures SameContainer(serial, t.w, c) { MoreBusy(s.workers, i, t.workers[i], c, 0); }
    forall j | !Held(t.workers, j) ensures JobOf(serial, j) == JobOf(t.w, j) { MoreBusy(s.workers, i, t.workers[i], 0, j); }
  }

  lemma MoreBusy(workers: seq<Proc>, i: nat, p': Proc, c: ContainerId, j: JobId)
    requires i < |workers| && workers[i].Idle?
    ensures BusyOn(workers, c) ==> BusyOn(workers[i := p'], c)
    ensures Held(workers, j) ==> Held(workers[i := p'], j)
  {
    if BusyOn(workers, c) {
      var k :| 0 <= k < |workers| && workers[k].Busy? && workers[k].job.target == c;
      assert workers[i := p'][k] == workers[k];
    }
    if Held(workers, j) {
      var k :| 0 <= k < |workers| && workers[k].Busy? && workers[k].job.id == j;
      assert workers[i := p'][k] == workers[k];
    }
  }

  lemma TakenAlone(s: Sys, i: nat)
    requires Inv(s) && AllOrderly(s)
    requires s.phase == Up && i < |s.workers| && s.workers[i].Idle? && |s.queue| > 0
    ensures !BusyOn(s.workers, s.queue[0].target) && !Held(s.workers, s.queue[0].id) && Image(s.w.jobs, s.queue[0])
  {
    var t, job := TakeJob(s, i), s.queue[0];
    assert Queued(s.queue, job.id);
    TakeInv(s, i);
    assert t.workers[i].Busy? && t.workers[i].job == job;
    forall k | 0 <= k < |s.workers| && s.workers[k].Busy? ensures s.workers[k].job.target != job.target {
      assert t.workers[k] == s.workers[k];
      OtherWorker(t, i, k);
    }
  }

  /** Changes outside the slices of the busy workers, made alike in both worlds. */
  lemma SimOutside(serial: World, serial': World, s: Sys, t: Sys, b: Book, b': Book)
    requires Simulates(serial, s, b) && t.workers == s.workers && b'.open == b.open
    requires forall i :: 0 <= i < |s.workers| && s.workers[i].Busy? ==>
      && SameSlice(serial, serial', s.workers[i].job.target, s.workers[i].job.id)
      && SameSlice(s.w, t.w, s.workers[i].job.target, s.workers[i].job.id)
    requires forall c :: !BusyOn(s.workers, c) ==> SameContainer(serial', t.w, c)
    requires forall j :: !Held(s.workers, j) ==> JobOf(serial', j) == JobOf(t.w, j)
    ensures Simulates(serial', t, b')
  {
    forall i | 0 <= i < |t.workers| ensures OpenOk(serial', t.w, t.workers[i], b'.open[i]) {
      assert OpenOk(serial, s.w, s.workers[i], b.open[i]);
      OpenStays(serial, serial', s.w, t.w, s.workers[i], b.open[i]);
    }
  }

  lemma SimStopsHeld(serial: World, s: Sys, b: Book, d: DockerId, h: nat)
    requires Inv(s) && AllOrderly(s) && Simulates(serial, s, b) && d in s.w.docker
    requires h < |s.workers| && s.workers[h].Busy? && s.workers[h].job.target == d.name
    ensures Simulates(serial, s.(w := Halt(s.w, d)), Jot(b, h, Stops(d)))
  {
    var t, b' := s.(w := Halt(s.w, d)), Jot(b, h, Stops(d));
    HaltLocal(s.w, s.w, d, 0);
    assert OpenOk(serial, s.w, s.workers[h], b.open[h]);
    OpenStopped(serial, s.w, s.workers[h], b.open[h], d);
    forall k | 0 <= k < |t.workers| && k != h ensures OpenOk(serial, t.w, t.workers[k], b'.open[k]) {
      assert OpenOk(serial, s.w, s.workers[k], b.open[k]);
      if s.workers[k].Busy? { OtherWorker(s, h, k); }
      OpenStays(serial, serial, s.w, t.w, s.workers[k], b.open[k]);
    }
    forall c | !BusyOn(t.workers, c) ensures SameContainer(serial, t.w, c) {
      assert c != d.name && SameContainer(s.w, t.w, c);
    }
  }

  lemma SimStopsFree(serial: World, s: Sys, b: Book, d: DockerId)
    requires Simulates(serial, s, b) && d in s.w.docker && !BusyOn(s.workers, d.name)
    ensures Simulates(Perform(serial, Stop(d)), s.(w := Halt(s.w, d)), Do(b, Stop(d)))
  {
    var t, serial' := s.(w := Halt(s.w, d)), Halt(serial, d);
    HaltContainer(serial, s.w, d);
    HaltContainer(s.w, serial, d);
    forall c | !BusyOn(s.workers, c) ensures SameContainer(serial', t.w, c) {
      if c != d.name {
        assert SameContainer(serial, serial', c) && SameContainer(s.w, t.w, c) && SameContainer(serial, s.w, c);
      }
    }
    forall i | 0 <= i < |s.workers| && s.workers[i].Busy?
      ensures SameSlice(serial, serial', s.workers[i].job.target, s.workers[i].job.id)
      ensures SameSlice(s.w, t.w, s.workers[i].job.target, s.workers[i].job.id)
    {
      assert s.workers[i].job.target != d.name;
    }
    SimOutside(serial, serial', s, t, b, Do(b, Stop(d)));
  }

  lemma HaltContainer(v: World, w: World, d: DockerId)
    requires SameContainer(v, w, d.name) || SameContainer(w, v, d.name)
    ensures SameContainer(Halt(v, d), Halt(w, d), d.name)
    ensures OnlyTouches(v, Halt(v, d), d.name, 0) && Halt(v, d).jobs == v.jobs
  {
  }

  lemma SimFound(serial: World, s: Sys, b: Book, r: Request)
    requires Inv(s) && Simulates(serial, s, b) && r.job.id in s.reqs && s.reqs[r.job.id] == r && r.stage.NewRow?
    ensures Simulates(Perform(serial, AddRow(r.stage.row)), Found(s, r, r.stage.row), Do(b, AddRow(r.stage.row)))
  {
    var t, row := Found(s, r, r.stage.row), r.stage.row;
    var serial', w' := Perform(serial, AddRow(row)), Perform(s.w, AddRow(row));
    FoundAlone(s, r);
    assert RequestOk(r, s.hist.rowIds) && !BusyOn(s.workers, row.id);
    AddRowSlices(serial, row);
    AddRowSlices(s.w, row);
    forall c | !BusyOn(s.workers, c) ensures SameContainer(serial', w', c) {
      AddRowBoth(serial, s.w, row, c);
    }
    forall j | !Held(s.workers, j) ensures JobOf(serial', j) == JobOf(w', j) {
      assert JobOf(serial, j) == JobOf(s.w, j);
    }
    assert t.w == w' && t.workers == s.workers;
    SimOutside(serial, serial', s, t, b, Do(b, AddRow(row)));
  }

  lemma AddRowBoth(v: World, w: World, row: Container, c: ContainerId)
    requires SameContainer(v, w, c)
    ensures SameContainer(Perform(v, AddRow(row)), Perform(w, AddRow(row)), c)
  {
  }

  lemma AddRowSlices(w: World, row: Container)
    ensures forall c, j :: c != row.id ==> SameSlice(w, Perform(w, AddRow(row)), c, j)
  {
  }

  lemma AddJobSlices(w: World, job: Job)
    ensures forall c, j :: j != job.id ==> SameSlice(w, Perform(w, AddJob(job)), c, j)
  {
  }

  lemma SimPublished(serial: World, s: Sys, b: Book, r: Request)
    requires Keyed(s) && Placed(s) && Simulates(serial, s, b) && r.job.id in s.reqs && s.reqs[r.job.id] == r
    ensures Simulates(Perform(serial, AddJob(r.job)), Publish(s, r), Do(b, AddJob(r.job)))
  {
    var t, serial', w' := Publish(s, r), Perform(serial, AddJob(r.job)), Perform(s.w, AddJob(r.job));
    assert !Held(s.workers, r.job.id);
    AddJobSlices(serial, r.job);
    AddJobSlices(s.w, r.job);
    forall c | !BusyOn(s.workers, c) ensures SameContainer(serial', w', c) {
      assert SameContainer(serial, s.w, c);
    }
    forall j | !Held(s.workers, j) ensures JobOf(serial', j) == JobOf(w', j) {
      assert JobOf(serial, j) == JobOf(s.w, j);
    }
    assert t.w == w' && t.workers == s.workers;
    SimOutside(serial, serial', s, t, b, Do(b, AddJob(r.job)));
  }

  lemma ExpireSlices(w: World, now: Time)
    ensures forall c, j :: (j in w.jobs ==> !Expired(w.jobs[j], now)) ==> SameSlice(w, Perform(w, Expire(now)), c, j)
    ensures forall j :: JobOf(Perform(w, Expire(now)), j) ==
              if j in w.jobs && Expired(w.jobs[j], now) then None else JobOf(w, j)
  {
  }

  lemma SimExpired(serial: World, s: Sys, b: Book)
    requires Placed(s) && Simulates(serial, s, b)
    ensures Simulates(Perform(serial, Expire(s.clock)), s.(w := s.w.(jobs := DeleteExpired(s.w.jobs, s.clock))), Do(b, Expire(s.clock)))
  {
    var t := s.(w := s.w.(jobs := DeleteExpired(s.w.jobs, s.clock)));
    ExpireSlices(serial, s.clock);
    ExpireSlices(s.w, s.clock);
    forall i | 0 <= i < |s.workers| && s.workers[i].Busy?
      ensures SameSlice(serial, Perform(serial, Expire(s.clock)), s.workers[i].job.target, s.workers[i].job.id)
      ensures SameSlice(s.w, t.w, s.workers[i].job.target, s.workers[i].job.id)
    {
      assert WorkerOk(s.w.jobs, s.workers[i]) && OpenOk(serial, s.w, s.workers[i], b.open[i]);
    }
    forall c | !BusyOn(s.workers, c) ensures SameContainer(Perform(serial, Expire(s.clock)), t.w, c) {
      assert SameContainer(serial, s.w, c);
    }
    SimOutside(serial, Perform(serial, Expire(s.clock)), s, t, b, Do(b, Expire(s.clock)));
  }
}
