/** Concrete runs that show why the theorems carry the conditions they do. */
module Witnesses {
  import opened Domain
  import opened Store
  import opened WorkerSteps
  import opened Protocol
  import opened Paths
  import opened Solo

  const ROW := Container(0, 0, "web", "alpine", [], Created, None, 0, 0)
  const DOCKER_ID := DockerId(0, 0)
  const CREATE := NewJobOf(0, CreateContainer)

  function NewJobOf(j: JobId, kind: JobKind): Job { Job(j, 0, 0, kind, JobPending, None, 0, None) }

  function Blank(locking: Locking): Sys {
    Sys(locking, World(map[], map[], map[], {}), [], [Idle, Idle], map[], map[], map[], Up, 0,
        History({}, {}, {}, {}, {}, {}, {}, {}, {}, {}, {}, {}))
  }

  lemma FromBlank(locking: Locking, s: Sys)
    requires (locking.mutex || locking.rowLock) && From(Blank(locking), s)
    ensures Reachable(s)
  {
    FromInit(Blank(locking), s);
  }

  /** The container row is there, its CREATE job is not yet: `Create` stands between its two writes. */
  function HalfMade(locking: Locking): Sys {
    var s := Blank(locking);
    s.(w := s.w.(rows := map[0 := ROW]), hist := s.hist.(jobIds := {0}, rowIds := {0}))
  }

  lemma HalfComesUp(locking: Locking)
    ensures From(Blank(locking), HalfMade(locking).(reqs := map[0 := Request(CREATE, NewJob)]))
  {
    FromItself(Blank(locking));
    RowMade(Blank(locking), Blank(locking), CREATE, ROW);
    assert Founded(Blank(locking), CREATE, ROW) == HalfMade(locking).(reqs := map[0 := Request(CREATE, NewJob)]);
  }

  const BOTH := Locking(true, true)

  /** Create stands between its two writes. */
  function Between(): Sys { HalfMade(BOTH).(reqs := map[0 := Request(CREATE, NewJob)]) }

  lemma ReadBetween(job: Job)
    requires job == NewJobOf(1, StartContainer) || job == NewJobOf(1, DeleteContainer)
    ensures From(Blank(BOTH), Standing(Known(Between(), 1), job, CheckJobs(ROW)))
  {
    HalfComesUp(BOTH);
    Called(Blank(BOTH), Between(), job);
    RowRead(Blank(BOTH), Known(Between(), 1), job);
  }

  /** A guard passes between Create's two writes. */
  lemma PassBetween(job: Job) returns (s: Sys)
    requires job == NewJobOf(1, StartContainer) || job == NewJobOf(1, DeleteContainer)
    ensures var half := HalfMade(BOTH);
      && s == half.(w := half.w.(jobs := map[1 := job]), queue := [job], hist := half.hist.(jobIds := {0, 1}, split := {0}))
      && From(Blank(BOTH), s.(reqs := map[0 := Request(CREATE, NewJob)]))
  {
    var t := Known(Between(), 1);
    ReadBetween(job);
    Passes(Blank(BOTH), t, job, ROW, Done);
    assert BetweenWrites(t, 0) by { assert 0 in t.reqs; }
    s := Admitted(t.(hist := t.hist.(split := {0})), job).(reqs := map[]);
    assert t.hist.split + {0} == {0};
  }

  /** Then Create goes on. */
  lemma SplitBy(kind: JobKind) returns (s: Sys)
    requires kind == StartContainer || kind == DeleteContainer
    ensures From(Blank(BOTH), s)
    ensures var job, half := NewJobOf(1, kind), HalfMade(BOTH);
      s == half.(w := half.w.(jobs := map[0 := CREATE, 1 := job]), queue := [job, CREATE],
                 hist := half.hist.(jobIds := {0, 1}, split := {0}))
  {
    var t := PassBetween(NewJobOf(1, kind));
    assert t.reqs[0 := Request(CREATE, NewJob)] == map[0 := Request(CREATE, NewJob)];
    JobMade(Blank(BOTH), t, CREATE);
    s := Admitted(t, CREATE);
    assert map[1 := NewJobOf(1, kind)][0 := CREATE] == map[0 := CREATE, 1 := NewJobOf(1, kind)];
  }

  /** Both locks do not keep a guard from passing between Create's two writes: then the CREATE job and
      the other job are active at the same time. */
  lemma SplitContainer() returns (s: Sys)
    ensures Reachable(s) && s.locking == BOTH && s.hist.unchecked == {}
    ensures 0 in s.w.jobs && 1 in s.w.jobs && s.w.jobs[0].target == s.w.jobs[1].target
    ensures s.w.jobs[0].Active() && s.w.jobs[1].Active() && s.w.jobs[1].kind == StartContainer
  {
    s := SplitBy(StartContainer);
    FromBlank(BOTH, s);
  }

  /** The container is made, and its CREATE job waits in the channel. */
  function Made(locking: Locking): Sys { Admitted(HalfMade(locking), CREATE) }

  lemma MadeComesUp(locking: Locking)
    ensures From(Blank(locking), Made(locking))
  {
    HalfComesUp(locking);
    assert HalfMade(locking).reqs[0 := Request(CREATE, NewJob)] == map[0 := Request(CREATE, NewJob)];
    JobMade(Blank(locking), HalfMade(locking), CREATE);
  }

  /** One more request whose guard takes its failed look-up of active jobs for "none". */
  lemma PassUnchecked(o: Sys, s: Sys, job: Job)
    requires From(o, s) && s.locking == Locking(true, false) && Uncontended(s, job)
    requires Enabled(s, CallGuarded(job)) && |s.queue| < CHANNEL_CAPACITY && !BetweenWrites(s, job.target)
    requires job.target in s.w.rows && s.w.rows[job.target].owner == job.user
    requires StatusAllows(job.kind, s.w.rows[job.target].status)
    ensures var h := s.hist.(jobIds := s.hist.jobIds + {job.id}, unchecked := s.hist.unchecked + {job.target});
      From(o, Admitted(s.(hist := h), job))
  {
    var t := Known(s, job.id);
    Called(o, s, job);
    RowRead(o, t, job);
    Passes(o, t, job, s.w.rows[job.target], Refused);
    assert PastGuard(t, job, Refused) ==
        s.hist.(jobIds := s.hist.jobIds + {job.id}, unchecked := s.hist.unchecked + {job.target});
  }

  /** With the mutex alone, a failed look-up of active jobs is enough for two jobs of one container,
      neither of them a CREATE, to be active at the same time. */
  lemma UncheckedGuard() returns (s: Sys)
    ensures Reachable(s) && s.locking == Locking(true, false) && s.hist.split == {}
    ensures 1 in s.w.jobs && 2 in s.w.jobs && s.w.jobs[1].target == s.w.jobs[2].target
    ensures s.w.jobs[1].Active() && s.w.jobs[2].Active()
    ensures s.w.jobs[1].kind == StartContainer == s.w.jobs[2].kind
  {
    var o := Blank(Locking(true, false));
    var one := Locking(true, false);
    MadeComesUp(one);
    var s0 := Made(one);
    PassUnchecked(o, s0, NewJobOf(1, StartContainer));
    var s1 := Admitted(s0.(hist := s0.hist.(jobIds := s0.hist.jobIds + {1}, unchecked := s0.hist.unchecked + {0})), NewJobOf(1, StartContainer));
    PassUnchecked(o, s1, NewJobOf(2, StartContainer));
    s := Admitted(s1.(hist := s1.hist.(jobIds := s1.hist.jobIds + {2}, unchecked := s1.hist.unchecked + {0})), NewJobOf(2, StartContainer));
    FromBlank(Locking(true, false), s);
  }

  // ---------- a CREATE job carried out ----------

  const LIVE := ROW.(dockerId := Some(DOCKER_ID))

  /** The tables and Docker after the CREATE job of the made container, from any such world. */
  function Carried(w: World, stops: bool, mark: Reply, end: Reply): World {
    World(map[0 := Settled(LIVE, stops, 0)],
          UpdateJob(UpdateJob(w, CREATE.(status := JobRunning), mark), Closed(CREATE, None, 0), end).jobs,
          map[DOCKER_ID := !stops], {DOCKER_ID})
  }

  predicate Ready(w: World) { w.rows == map[0 := ROW] && w.docker == map[] && w.made == {} && 0 in w.jobs && w.jobs[0] == CREATE }

  /** The world once Docker runs the container of the CREATE job. */
  function Live(w: World, mark: Reply): World {
    World(map[0 := ROW], UpdateJob(w, CREATE.(status := JobRunning), mark).jobs, map[DOCKER_ID := true], {DOCKER_ID})
  }

  const WAITING := Busy(CREATE.(status := JobRunning), WaitExit(LIVE, DOCKER_ID), Some(ROW))

  lemma CreateLaunches(w: World, mark: Reply)
    requires Ready(w)
    ensures Leads(Begin(w, CREATE), LaunchLog(DOCKER_ID, mark, 0), Outcome(Live(w, mark), WAITING))
  {
    LaunchPath(w, CREATE, DOCKER_ID, mark, 0);
    assert w.docker[DOCKER_ID := true] == map[DOCKER_ID := true] && w.made + {DOCKER_ID} == {DOCKER_ID};
  }

  lemma CreateSettles(w: World, stops: bool, mark: Reply, end: Reply)
    ensures Leads(Outcome(Live(w, mark), WAITING), SettleLog(DOCKER_ID, stops, end, 0), Outcome(Carried(w, stops, mark, end), Idle))
  {
    SettlePath(Live(w, mark), WAITING, DOCKER_ID, stops, end, 0);
    assert map[0 := ROW][0 := Settled(LIVE, stops, 0)] == map[0 := Settled(LIVE, stops, 0)];
  }

  lemma CreatePath(w: World, stops: bool, mark: Reply, end: Reply)
    requires Ready(w)
    ensures Leads(Begin(w, CREATE), LaunchLog(DOCKER_ID, mark, 0) + SettleLog(DOCKER_ID, stops, end, 0), Outcome(Carried(w, stops, mark, end), Idle))
  {
    CreateLaunches(w, mark);
    CreateSettles(w, stops, mark, end);
    ReplayAppend(Begin(w, CREATE), LaunchLog(DOCKER_ID, mark, 0), SettleLog(DOCKER_ID, stops, end, 0));
  }

  /** Worker i carries the CREATE job out, wherever the rest of the system stands. */
  lemma CarryOut(o: Sys, s: Sys, i: nat, stops: bool, mark: Reply, end: Reply) returns (t: Sys)
    requires From(o, s) && s.phase == Up && s.clock == 0 && Ready(s.w) && 0 !in s.locks
    requires i < |s.workers| && s.workers[i] == Busy(CREATE, Mark, Some(ROW))
    ensures From(o, t) && t == s.(w := Carried(s.w, stops, mark, end), workers := s.workers[i := Idle], hist := t.hist)
    ensures SameAdmissions(s.hist, t.hist)
  {
    CreatePath(s.w, stops, mark, end);
    t := WorkerRuns(o, s, i, LaunchLog(DOCKER_ID, mark, 0) + SettleLog(DOCKER_ID, stops, end, 0));
  }

  /** A job of the container gets as far as its second call: a DELETE to its removal request, a START to
      its start request. */
  lemma Proceeds(o: Sys, s: Sys, i: nat) returns (t: Sys)
    requires From(o, s) && s.phase == Up && s.clock == 0 && i < |s.workers| && s.workers[i].Busy?
    requires s.workers[i].pc.Mark? && s.workers[i].job.target in s.w.rows && s.workers[i].job.target !in s.locks
    ensures var p := s.workers[i];
      var marked := p.job.(status := JobRunning);
      && From(o, t)
      && t == s.(w := s.w.(jobs := UpdateJob(s.w, marked, Done).jobs),
                 workers := s.workers[i := Busy(marked, Dispatch(p.job.kind, s.w.rows[p.job.target]), p.before)],
                 hist := t.hist)
      && SameAdmissions(s.hist, t.hist)
  {
    var ok := Ok(DOCKER_ID, 0);
    var u := OneAnswer(o, s, i, ok);
    t := OneAnswer(o, u, i, ok);
    assert s.workers[i := u.workers[i]][i := t.workers[i]] == s.workers[i := t.workers[i]];
  }

  /** The CREATE job of the made container is with worker 0. */
  function Taken(locking: Locking): Sys {
    Made(locking).(queue := [], workers := [Busy(CREATE, Mark, Some(ROW)), Idle])
  }

  lemma TakenComesUp(locking: Locking)
    ensures From(Blank(locking), Taken(locking))
  {
    MadeComesUp(locking);
    ReachMore(Blank(locking), Made(locking), Take(0));
    assert Apply(Made(locking), Take(0)) == Taken(locking);
  }

  // ---------- a running container is removed ----------

  /** With the mutex alone, a guard can read a status that the row no longer has when its job is
      inserted: a DELETE on an orderly container then removes the running Docker container. */
  lemma StaleStatus() returns (s: Sys)
    ensures Reachable(s) && s.locking == Locking(true, false)
    ensures s.hist.split == {} && s.hist.unchecked == {}
    ensures |s.workers| > 0 && s.workers[0].Busy? && s.workers[0].pc == DockerRemove(DOCKER_ID) && IsRunning(s.w, DOCKER_ID)
  {
    var s3 := StatusRead();
    var del := NewJobOf(1, DeleteContainer);
    var s4 := s3.(reqs := map[], mutex := map[]);
    assert s3 == Standing(s4, del, CheckJobs(ROW));
    s := DeleteGoesOn(Blank(Locking(true, false)), s4, del);
    FromBlank(Locking(true, false), s);
  }

  /** The guard of a DELETE has read Created; then the CREATE job ends and the row says Running. */
  lemma StatusRead() returns (s: Sys)
    ensures From(Blank(Locking(true, false)), s)
    ensures var base := Taken(Locking(true, false));
      && s == base.(w := Carried(base.w, false, Done, Done), workers := [Idle, Idle], hist := s.hist,
                    reqs := map[1 := Request(NewJobOf(1, DeleteContainer), CheckJobs(ROW))], mutex := map[0 := 1])
      && s.hist.split == {} && s.hist.unchecked == {}
  {
    var one, del := Locking(true, false), NewJobOf(1, DeleteContainer);
    var s1 := Taken(one);
    TakenComesUp(one);
    Called(Blank(one), s1, del);
    RowRead(Blank(one), Known(s1, 1), del);
    s := CarryOut(Blank(one), Standing(Known(s1, 1), del, CheckJobs(ROW)), 0, false, Done, Done);
  }

  lemma DeleteGoesOn(o: Sys, s4: Sys, del: Job) returns (s: Sys)
    requires s4.locking == Locking(true, false) && s4.phase == Up && s4.clock == 0 && s4.queue == [] && s4.workers == [Idle, Idle]
    requires s4.reqs == map[] && s4.mutex == map[] && s4.locks == map[] && s4.hist.split == {} && s4.hist.unchecked == {}
    requires del == NewJobOf(1, DeleteContainer) && From(o, Standing(s4, del, CheckJobs(ROW)))
    requires 0 in s4.w.rows && s4.w.rows[0].dockerId == Some(DOCKER_ID) && IsRunning(s4.w, DOCKER_ID) && !HasActiveJob(s4.w, 0)
    ensures From(o, s) && s.locking == Locking(true, false)
    ensures s.hist.split == {} && s.hist.unchecked == {}
    ensures |s.workers| > 0 && s.workers[0].Busy? && s.workers[0].pc == DockerRemove(DOCKER_ID) && IsRunning(s.w, DOCKER_ID)
  {
    Passes(o, s4, del, ROW, Done);
    assert !BetweenWrites(s4, 0);
    var s5 := Admitted(s4.(hist := PastGuard(s4, del, Done)), del);
    ReachMore(o, s5, Take(0));
    s := Proceeds(o, Apply(s5, Take(0)), 0);
  }

  // ---------- with both locks: a crash between Docker and the row ----------

  /** The made container has run and stopped, and its row says so. */
  lemma Stopped() returns (s: Sys)
    ensures From(Blank(BOTH), s)
    ensures var base := Taken(BOTH);
      && s == base.(w := Carried(base.w, true, Done, Done), workers := [Idle, Idle], hist := s.hist)
      && SameAdmissions(base.hist, s.hist)
  {
    TakenComesUp(BOTH);
    s := CarryOut(Blank(BOTH), Taken(BOTH), 0, true, Done, Done);
  }

  /** A START job is admitted and taken. */
  lemma StartTaken() returns (s: Sys)
    ensures From(Blank(BOTH), s) && s.locking == BOTH && s.phase == Up && s.clock == 0 && s.locks == map[]
    ensures s.workers == [Busy(NewJobOf(1, StartContainer), Mark, Some(Settled(LIVE, true, 0))), Idle]
    ensures s.w.rows == map[0 := Settled(LIVE, true, 0)] && s.w.docker == map[DOCKER_ID := false]
    ensures s.w.jobs.Keys == {0, 1} && s.w.jobs[0].status == JobSuccess && s.w.jobs[1] == NewJobOf(1, StartContainer)
    ensures s.hist.jobIds == {0, 1} && s.hist.split == {} && s.hist.unchecked == {}
  {
    var o, start := Blank(BOTH), NewJobOf(1, StartContainer);
    var s1 := Stopped();
    AdmitAlone(o, s1, start);
    var s2 := Admitted(Known(s1, 1), start);
    ReachMore(o, s2, Take(0));
    s := Apply(s2, Take(0));
    assert s.w.jobs.Keys == {0, 1};
  }

  /** It has had Docker start the container again, and waits for it. */
  lemma StartedAgain() returns (s: Sys)
    ensures From(Blank(BOTH), s) && s.locking == BOTH && s.clock == 0 && |s.workers| == 2
    ensures s.w.rows == map[0 := Settled(LIVE, true, 0)] && s.w.docker == map[DOCKER_ID := true]
    ensures s.w.jobs.Keys == {0, 1} && s.w.jobs[0].status == JobSuccess && s.w.jobs[1].status == JobRunning
    ensures s.hist.jobIds == {0, 1} && s.hist.split == {} && s.hist.unchecked == {}
  {
    var s1 := StartTaken();
    var s2 := Proceeds(Blank(BOTH), s1, 0);
    s := OneAnswer(Blank(BOTH), s2, 0, Ok(DOCKER_ID, 0));
    assert s.w.docker == map[DOCKER_ID := true];
  }

  /** The process crashes and starts again; only PENDING jobs come back. */
  lemma Restarted(o: Sys, s: Sys, listing: seq<Job>) returns (t: Sys)
    requires From(o, s) && IsListing(MarkRunningAsFailed(s.w.jobs), listing) && |listing| <= CHANNEL_CAPACITY
    ensures From(o, t) && t.w == s.w.(jobs := MarkRunningAsFailed(s.w.jobs)) && t.queue == listing
    ensures t.locking == s.locking && t.clock == s.clock && t.phase == Up && t.reqs == map[] && t.mutex == map[] && t.locks == map[]
    ensures |t.workers| == |s.workers| && forall i :: 0 <= i < |s.workers| ==> t.workers[i] == Idle
    ensures SameAdmissions(s.hist, t.hist)
  {
    ReachMore(o, s, Crash);
    var a := Apply(s, Crash);
    ReachMore(o, a, Recover(Done));
    var b := Apply(a, Recover(Done));
    ReachMore(o, b, Requeue(listing, |listing|));
    t := Apply(b, Requeue(listing, |listing|));
    assert listing[..|listing|] == listing;
  }

  /** Even with both locks and on an orderly container, a crash between Docker's start and the row write
      leaves a row that says Exited over a running container; a DELETE is admitted and removes it. */
  lemma CrashedStart() returns (s: Sys)
    ensures Reachable(s) && s.locking == BOTH && s.hist.split == {} && s.hist.unchecked == {}
    ensures |s.workers| > 0 && s.workers[0].Busy? && s.workers[0].pc == DockerRemove(DOCKER_ID) && IsRunning(s.w, DOCKER_ID)
  {
    var o, del := Blank(BOTH), NewJobOf(2, DeleteContainer);
    var s2 := TrailingRow();
    AdmitAlone(o, s2, del);
    var s3 := Admitted(Known(s2, 2), del);
    ReachMore(o, s3, Take(0));
    s := Proceeds(o, Apply(s3, Take(0)), 0);
    FromBlank(BOTH, s);
  }

  lemma TrailingRow() returns (s: Sys)
    ensures From(Blank(BOTH), s) && s.locking == BOTH && s.phase == Up && s.clock == 0 && s.queue == []
    ensures s.workers == [Idle, Idle] && s.reqs == map[] && s.mutex == map[] && s.locks == map[]
    ensures s.w.rows == map[0 := Settled(LIVE, true, 0)] && s.w.docker == map[DOCKER_ID := true]
    ensures !HasActiveJob(s.w, 0)
    ensures s.hist.jobIds == {0, 1} && s.hist.split == {} && s.hist.unchecked == {}
  {
    var s1 := StartedAgain();
    s := Restarted(Blank(BOTH), s1, []);
    assert forall j :: j in s.w.jobs ==> j == 0 || j == 1;
  }

  // ---------- a Docker ID is replaced ----------

  const NEXT_ID := DockerId(0, 1)

  /** On a split container, a CREATE job whose status writes all failed has run and stopped; it is still
      PENDING, and worker 0 holds the DELETE that fell between Create's two writes. */
  lemma Unrecorded() returns (s: Sys)
    ensures From(Blank(BOTH), s) && s.locking == BOTH && s.clock == 0 && s.phase == Up && s.locks == map[]
    ensures s.w.rows == map[0 := Settled(LIVE, true, 0)]
    ensures s.w.jobs == map[0 := CREATE, 1 := NewJobOf(1, DeleteContainer)]
    ensures s.w.docker == map[DOCKER_ID := false] && s.w.made == {DOCKER_ID}
    ensures s.workers == [Busy(NewJobOf(1, DeleteContainer), Mark, Some(ROW)), Idle]
  {
    var o, del := Blank(BOTH), NewJobOf(1, DeleteContainer);
    var s1 := SplitBy(DeleteContainer);
    ReachMore(o, s1, Take(0));
    var s2 := Apply(s1, Take(0));
    ReachMore(o, s2, Take(1));
    var s3 := Apply(s2, Take(1));
    assert s3.workers == [Busy(del, Mark, Some(ROW)), Busy(CREATE, Mark, Some(ROW))];
    s := CarryOut(o, s3, 1, true, Refused, Refused);
  }

  /** The DELETE removes the Docker container but fails to delete the row. */
  lemma HalfDeleted(o: Sys) returns (s: Sys)
    requires From(Blank(BOTH), o) && o.clock == 0 && o.phase == Up && o.locks == map[]
    requires o.w.rows == map[0 := Settled(LIVE, true, 0)] && o.w.jobs == map[0 := CREATE, 1 := NewJobOf(1, DeleteContainer)]
    requires o.w.docker == map[DOCKER_ID := false] && o.w.made == {DOCKER_ID}
    requires o.workers == [Busy(NewJobOf(1, DeleteContainer), Mark, Some(ROW)), Idle]
    ensures From(o, s) && s.clock == 0 && |s.workers| == 2
    ensures s.w.rows == o.w.rows && s.w.docker == map[] && s.w.made == {DOCKER_ID}
    ensures s.w.jobs.Keys == {0, 1} && s.w.jobs[0] == CREATE && s.w.jobs[1].status == JobRunning
  {
    FromItself(o);
    var s1 := Proceeds(o, o, 0);
    s := OneAnswer(o, s1, 0, Ok(DOCKER_ID, 0));
  }

  /** The ID of a container can change: the crash leaves the CREATE job PENDING, it is queued again, and
      makes a second Docker container for the row that already had one. */
  lemma IdCanChange() returns (s: Sys, t: Sys)
    ensures Reachable(s) && From(s, t) && 0 in s.w.rows && 0 in t.w.rows
    ensures s.w.rows[0].dockerId == Some(DOCKER_ID) && t.w.rows[0].dockerId == Some(NEXT_ID)
  {
    s := Unrecorded();
    FromBlank(BOTH, s);
    var s1 := HalfDeleted(s);
    var s2 := Restarted(s, s1, [CREATE]);
    t := CreatedAgain(s, s2);
  }

  lemma CreatedAgain(o: Sys, s: Sys) returns (t: Sys)
    requires From(o, s) && s.phase == Up && s.clock == 0 && s.locks == map[] && |s.workers| > 0 && s.workers[0] == Idle
    requires s.queue == [CREATE] && 0 in s.w.rows && s.w.rows[0].id == 0
    requires s.w.docker == map[] && s.w.made == {DOCKER_ID}
    ensures From(o, t) && 0 in t.w.rows && t.w.rows[0].dockerId == Some(NEXT_ID)
  {
    ReachMore(o, s, Take(0));
    var s1 := Apply(s, Take(0));
    LaunchPath(s.w, CREATE, NEXT_ID, Done, 0);
    var s2 := WorkerRuns(o, s1, 0, LaunchLog(NEXT_ID, Done, 0));
    SettlePath(s2.w, s2.workers[0], NEXT_ID, true, Done, 0);
    t := WorkerRuns(o, s2, 0, SettleLog(NEXT_ID, true, Done, 0));
  }
}
