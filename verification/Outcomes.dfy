/** What one job comes to, by the answers to its calls: every way in which a job can fail, what is left
    behind then, and what is recorded when it does not fail. */
module Outcomes {
  import opened Domain
  import opened Store
  import opened WorkerSteps

  // ---------- logs of answers ----------

  /** The answers log, given to o one after the other, lead to r. */
  predicate Answered(o: Outcome, log: seq<Answer>, r: Outcome) { Replay(o, Answers(log)) == r }

  lemma NoAnswer(o: Outcome)
    ensures Answered(o, [], o)
  {
    assert Answers([]) == [];
  }

  lemma AnsweredOn(o: Outcome, log: seq<Answer>, r: Outcome, a: Answer)
    requires Answered(o, log, r) && r.proc.Busy?
    ensures Answered(o, log + [a], Work(r.world, r.proc, a))
  {
    assert Answers(log + [a]) == Answers(log) + [Reply(a)];
    LastEvent(o, Answers(log), Reply(a));
  }

  /** The worker of this job at a stage, in a world in which only the job row has been written since w. */
  function Working(w: World, job: Job, mark: Answer, pc: Pc): Outcome {
    Outcome(UpdateJob(w, job.(status := JobRunning), mark.reply), Busy(job.(status := JobRunning), pc, RowOf(w, job.target)))
  }

  lemma MarkedAndRead(w: World, job: Job, mark: Answer, read: Answer)
    ensures Answered(Begin(w, job), [mark, read],
              Working(w, job, mark,
                if !read.reply.Done? then Finish(Some(DatabaseError))
                else if job.target !in w.rows then Finish(Some(RowNotFound))
                else Dispatch(job.kind, w.rows[job.target])))
  {
    NoAnswer(Begin(w, job));
    AnsweredOn(Begin(w, job), [], Begin(w, job), mark);
    AnsweredOn(Begin(w, job), [mark], Working(w, job, mark, Fetch), read);
    assert [] + [mark] == [mark] && [mark] + [read] == [mark, read];
  }

  /** The job row after the final write: FAILED with this cause, or SUCCESS, at the time of the write. */
  predicate Recorded(jobs: map<JobId, Job>, job: Job, failure: Option<Cause>, end: Answer) {
    && job.id in jobs && jobs[job.id].SameJob(job) && jobs[job.id].completedAt == Some(end.now)
    && (failure.Some? ==> jobs[job.id].status == JobFailed && jobs[job.id].error == failure)
    && (failure.None? ==> jobs[job.id].status == JobSuccess && jobs[job.id].error == job.error)
  }

  /** The job is over and recorded so, and container rows and Docker are these. */
  predicate Over(o: Outcome, job: Job, failure: Option<Cause>, end: Answer, rows: map<ContainerId, Container>, docker: map<DockerId, bool>) {
    o.proc.Idle? && o.world.rows == rows && o.world.docker == docker && Recorded(o.world.jobs, job, failure, end)
  }

  predicate Recordable(w: World, job: Job) { job.id in w.jobs && w.jobs[job.id].SameJob(job) }

  lemma Ends(o: Outcome, log: seq<Answer>, r: Outcome, job: Job, failure: Option<Cause>, end: Answer)
    requires Answered(o, log, r) && r.proc.Busy? && r.proc.pc == Finish(failure) && end.reply.TookEffect()
    requires Recordable(r.world, job) && r.proc.job == job.(status := JobRunning)
    ensures Over(Replay(o, Answers(log + [end])), job, failure, end, r.world.rows, r.world.docker)
    ensures Replay(o, Answers(log + [end])).world.made == r.world.made
  {
    AnsweredOn(o, log, r, end);
  }

  // ---------- jobs that do not get to their Docker call ----------

  /** A row that cannot be read, is not there, or has no Docker ID to start or stop: nothing but the job row
      changes, and the job says why. */
  lemma NothingToDo(w: World, job: Job, mark: Answer, read: Answer, end: Answer)
    requires Recordable(w, job) && end.reply.TookEffect()
    ensures var o := Replay(Begin(w, job), Answers([mark, read, end]));
      && (!read.reply.Done? ==> Over(o, job, Some(DatabaseError), end, w.rows, w.docker))
      && (read.reply.Done? && job.target !in w.rows ==> Over(o, job, Some(RowNotFound), end, w.rows, w.docker))
      && (read.reply.Done? && job.target in w.rows && w.rows[job.target].dockerId.None? ==>
            && (job.kind == StartContainer ==> Over(o, job, Some(NoDockerId), end, w.rows, w.docker))
            && (job.kind == StopContainer ==> Over(o, job, Some(RuntimeError), end, w.rows, w.docker)))
  {
    var r := Replay(Begin(w, job), Answers([mark, read]));
    MarkedAndRead(w, job, mark, read);
    if r.proc.pc.Finish? { Ends(Begin(w, job), [mark, read], r, job, r.proc.pc.verdict, end); }
    assert [mark, read] + [end] == [mark, read, end];
  }

  // ---------- CREATE at Docker ----------

  predicate Creates(w: World, job: Job, read: Answer) {
    Recordable(w, job) && job.kind == CreateContainer && job.target in w.rows && w.rows[job.target].id == job.target && read.reply.Done?
  }

  lemma MadeDir(w: World, job: Job, mark: Answer, read: Answer, dir: Answer)
    requires Creates(w, job, read)
    ensures Answered(Begin(w, job), [mark, read, dir],
              Working(w, job, mark, if dir.reply.Done? then DockerCreate(w.rows[job.target]) else Finish(Some(StorageError))))
  {
    MarkedAndRead(w, job, mark, read);
    AnsweredOn(Begin(w, job), [mark, read], Working(w, job, mark, Mkdir(w.rows[job.target])), dir);
    assert [mark, read] + [dir] == [mark, read, dir];
  }

  /** Without its folder a CREATE fails before it asks Docker for anything. */
  lemma CreateWithoutFolder(w: World, job: Job, mark: Answer, read: Answer, dir: Answer, end: Answer)
    requires Creates(w, job, read) && end.reply.TookEffect() && !dir.reply.Done?
    ensures Over(Replay(Begin(w, job), Answers([mark, read, dir, end])), job, Some(StorageError), end, w.rows, w.docker)
  {
    MadeDir(w, job, mark, read, dir);
    Ends(Begin(w, job), [mark, read, dir], Working(w, job, mark, Finish(Some(StorageError))), job, Some(StorageError), end);
    assert [mark, read, dir] + [end] == [mark, read, dir, end];
  }

  /** A creation that is not confirmed, or meets a container of its name, fails the job. It leaves Docker as it
      was, unless only the confirmation was lost: then the new container stays, not running. */
  lemma CreateUnconfirmed(w: World, job: Job, mark: Answer, read: Answer, dir: Answer, made: Answer, end: Answer)
    requires Creates(w, job, read) && end.reply.TookEffect() && dir.reply.Done?
    requires NameTaken(w, job.target) || !made.reply.Done?
    ensures Over(Replay(Begin(w, job), Answers([mark, read, dir, made, end])), job, Some(RuntimeError), end, w.rows,
              if !NameTaken(w, job.target) && made.reply.Lost? then w.docker[made.newId := false] else w.docker)
  {
    var o, r := Begin(w, job), Working(w, job, mark, DockerCreate(w.rows[job.target]));
    MadeDir(w, job, mark, read, dir);
    AnsweredOn(o, [mark, read, dir], r, made);
    assert [mark, read, dir] + [made] == [mark, read, dir, made];
    Ends(o, [mark, read, dir, made], Work(r.world, r.proc, made), job, Some(RuntimeError), end);
    assert [mark, read, dir, made] + [end] == [mark, read, dir, made, end];
  }

  lemma CreatedUnstarted(w: World, job: Job, mark: Answer, read: Answer, dir: Answer, made: Answer, start: Answer)
    requires Creates(w, job, read) && dir.reply.Done? && !NameTaken(w, job.target) && made.reply.Done? && !start.reply.Done?
    ensures Answered(Begin(w, job), [mark, read, dir, made, start],
              Outcome(Working(w, job, mark, Mark).world.(docker := w.docker[made.newId := start.reply.Lost?], made := w.made + {made.newId}),
                      Working(w, job, mark, Cleanup(made.newId)).proc))
  {
    var o, c, d := Begin(w, job), w.rows[job.target], made.newId;
    var r := Working(w, job, mark, DockerCreate(c));
    MadeDir(w, job, mark, read, dir);
    AnsweredOn(o, [mark, read, dir], r, made);
    assert [mark, read, dir] + [made] == [mark, read, dir, made];
    AnsweredOn(o, [mark, read, dir, made], Outcome(Provide(r.world, d), Working(w, job, mark, FirstStart(c, d)).proc), start);
    assert [mark, read, dir, made] + [start] == [mark, read, dir, made, start];
    assert w.docker[d := false][d := true] == w.docker[d := true];
  }

  /** A first start that is not confirmed fails the job, and the new container is removed again: if the removal
      takes effect, Docker is as it was, and only the ID has been used up. Otherwise the new container stays,
      running exactly if its start had taken effect. The row is untouched. */
  lemma LaunchUndone(w: World, job: Job, mark: Answer, read: Answer, dir: Answer, made: Answer, start: Answer, clear: Answer, end: Answer)
    requires Creates(w, job, read) && end.reply.TookEffect() && dir.reply.Done? && !NameTaken(w, job.target) && made.reply.Done?
    requires !start.reply.Done? && made.newId.name == job.target
    ensures var o := Replay(Begin(w, job), Answers([mark, read, dir, made, start, clear, end]));
      && Over(o, job, Some(RuntimeError), end, w.rows,
              if clear.reply.TookEffect() then w.docker else w.docker[made.newId := start.reply.Lost?])
      && o.world.made == w.made + {made.newId}
  {
    var o, d := Begin(w, job), made.newId;
    var log, r := [mark, read, dir, made, start], Replay(Begin(w, job), Answers([mark, read, dir, made, start]));
    CreatedUnstarted(w, job, mark, read, dir, made, start);
    AnsweredOn(o, log, r, clear);
    assert d !in w.docker;
    assert w.docker[d := start.reply.Lost?] - {d} == w.docker;
    Ends(o, log + [clear], Work(r.world, r.proc, clear), job, Some(RuntimeError), end);
    assert log + [clear] + [end] == [mark, read, dir, made, start, clear, end];
  }

  // ---------- START and STOP at Docker ----------

  predicate Drives(w: World, job: Job, read: Answer, d: DockerId) {
    Recordable(w, job) && job.target in w.rows && w.rows[job.target].dockerId == Some(d) && read.reply.Done?
  }

  /** A START that is not confirmed fails; the container then runs only if the start had taken effect. If Docker
      answers that it has no such container, the job says so. */
  lemma StartUnconfirmed(w: World, job: Job, d: DockerId, mark: Answer, read: Answer, start: Answer, end: Answer)
    requires Drives(w, job, read, d) && job.kind == StartContainer && end.reply.TookEffect()
    requires !start.reply.Done? || d !in w.docker
    ensures Over(Replay(Begin(w, job), Answers([mark, read, start, end])), job,
              Some(if start.reply.Done? then DockerNotFound else RuntimeError), end, w.rows,
              if start.reply.Lost? && d in w.docker then w.docker[d := true] else w.docker)
  {
    var o, r := Begin(w, job), Working(w, job, mark, DockerStart(w.rows[job.target], d));
    MarkedAndRead(w, job, mark, read);
    AnsweredOn(o, [mark, read], r, start);
    assert [mark, read] + [start] == [mark, read, start];
    var s := Work(r.world, r.proc, start);
    Ends(o, [mark, read, start], s, job, s.proc.pc.verdict, end);
    assert [mark, read, start] + [end] == [mark, read, start, end];
  }

  /** A STOP that is not confirmed, or finds no such container, fails; the container has stopped only if the
      stop had taken effect. */
  lemma StopUnconfirmed(w: World, job: Job, d: DockerId, mark: Answer, read: Answer, stop: Answer, end: Answer)
    requires Drives(w, job, read, d) && job.kind == StopContainer && end.reply.TookEffect()
    requires !stop.reply.Done? || d !in w.docker
    ensures Over(Replay(Begin(w, job), Answers([mark, read, stop, end])), job, Some(RuntimeError), end, w.rows,
              if stop.reply.Lost? && d in w.docker then w.docker[d := false] else w.docker)
  {
    var o, r := Begin(w, job), Working(w, job, mark, DockerStop(w.rows[job.target], d));
    MarkedAndRead(w, job, mark, read);
    AnsweredOn(o, [mark, read], r, stop);
    assert [mark, read] + [stop] == [mark, read, stop];
    Ends(o, [mark, read, stop], Work(r.world, r.proc, stop), job, Some(RuntimeError), end);
    assert [mark, read, stop] + [end] == [mark, read, stop, end];
  }

  /** A DELETE of a row without a Docker ID asks Docker for nothing: it deletes the row and succeeds. */
  lemma DeleteWithoutId(w: World, job: Job, mark: Answer, read: Answer, drop: Answer, end: Answer)
    requires Recordable(w, job) && job.kind == DeleteContainer && job.target in w.rows && w.rows[job.target].dockerId.None?
    requires read.reply.Done? && drop.reply.Done? && end.reply.TookEffect()
    ensures Over(Replay(Begin(w, job), Answers([mark, read, drop, end])), job, None, end, w.rows - {job.target}, w.docker)
  {
    var o, r := Begin(w, job), Working(w, job, mark, DropRow(0));
    MarkedAndRead(w, job, mark, read);
    AnsweredOn(o, [mark, read], r, drop);
    assert [mark, read] + [drop] == [mark, read, drop];
    Ends(o, [mark, read, drop], Work(r.world, r.proc, drop), job, None, end);
    assert [mark, read, drop] + [end] == [mark, read, drop, end];
  }

  // ---------- what is recorded ----------

  /** After a wait that saw the container exit, and after a stop, the row to be written says Exited; after an
      answered inspection of a container that Docker has, it says Running if and only if the container ran at
      that answer, and Exited otherwise; after an inspection that tells nothing, it says Running. Nothing else
      of the worker's copy changes but the time. */
  lemma ObservationRecorded(w: World, p: Proc, a: Answer)
    requires p.Busy? && (p.pc.WaitExit? || p.pc.Inspect? || p.pc.DockerStop?)
    ensures var d, o := p.pc.d, Work(w, p, a);
      && (p.pc.WaitExit? && !a.reply.Done? ==> o == Outcome(w, p.(pc := Inspect(p.pc.c, d))))
      && ((p.pc.WaitExit? && a.reply.Done?) || p.pc.Inspect? ==> o.world == w && o.proc.Busy? && o.proc.pc.WriteRow?)
      && (p.pc.DockerStop? && a.reply.Done? && d in w.docker ==> o.proc.Busy? && o.proc.pc.WriteRow? && o.world.docker == w.docker[d := false])
      && (o.proc.pc.WriteRow? ==>
            var c := o.proc.pc.c;
            && o.proc.pc.tries == 0 && c.updatedAt == a.now && c == p.pc.c.(status := c.status, updatedAt := c.updatedAt)
            && (!p.pc.Inspect? ==> c.status == Exited)
            && (p.pc.Inspect? && a.reply.Done? && d in w.docker ==>
                  (c.status == Running <==> w.docker[d]) && (c.status == Exited <==> !w.docker[d]))
            && (p.pc.Inspect? && (!a.reply.Done? || d !in w.docker) ==> c.status == Running))
  {
  }

  /** A row that is gone when the worker comes to write or delete it: each try reports a missing row, and the job
      fails without having changed anything. */
  lemma RowMissing(w: World, p: Proc, a: Answer, b: Answer, e: Answer)
    requires p.Busy? && ((p.pc.WriteRow? && p.pc.c.id !in w.rows) || (p.pc.DropRow? && p.job.target !in w.rows)) && p.pc.tries == 0
    ensures Replay(Outcome(w, p), Answers([a, b, e])) == Outcome(w, p.(pc := Finish(Some(DatabaseError))))
  {
    var o := Outcome(w, p);
    NoAnswer(o);
    AnsweredOn(o, [], o, a);
    assert [] + [a] == [a] && [a] + [b] == [a, b] && [a, b] + [e] == [a, b, e];
    AnsweredOn(o, [a], Work(w, p, a), b);
    AnsweredOn(o, [a, b], Replay(o, Answers([a, b])), e);
    if p.pc.DropRow? { assert w.rows - {p.job.target} == w.rows; }
  }

  /** The row delete of a worker has three tries as well. It succeeds exactly at the first that is confirmed; a try
      that took effect without confirmation makes the later ones report a missing row, so that the job fails
      with its row gone. */
  lemma RowDropped(w: World, p: Proc, a: Answer, b: Answer, e: Answer)
    requires p.Busy? && p.pc.DropRow? && p.pc.tries == 0 && p.job.target in w.rows
    ensures var log := if a.reply.Done? then [a] else if b.reply.Done? && a.reply.Refused? then [a, b] else [a, b, e];
      var o := Replay(Outcome(w, p), Answers(log));
      var first := if !a.reply.Refused? then a.reply else if !b.reply.Refused? then b.reply else e.reply;
      && o.proc == p.(pc := Finish(if first.Done? then None else Some(DatabaseError)))
      && o.world == w.(rows := if first.Refused? then w.rows else w.rows - {p.job.target})
  {
    var o := Outcome(w, p);
    NoAnswer(o);
    AnsweredOn(o, [], o, a);
    assert [] + [a] == [a] && [a] + [b] == [a, b] && [a, b] + [e] == [a, b, e];
    assert w.rows - {p.job.target} - {p.job.target} == w.rows - {p.job.target};
    if !a.reply.Done? {
      AnsweredOn(o, [a], Work(w, p, a), b);
      if !(b.reply.Done? && a.reply.Refused?) { AnsweredOn(o, [a, b], Replay(o, Answers([a, b])), e); }
    }
  }

  /** The row write of a worker: it has three tries. It succeeds exactly at the first that is confirmed, and then
      the row is the worker's copy but for owner and creation time; if none is, the job has failed, and the row
      is the copy all the same exactly if a try took effect. */
  lemma RowWritten(w: World, p: Proc, a: Answer, b: Answer, e: Answer)
    requires p.Busy? && p.pc.WriteRow? && p.pc.tries == 0 && p.pc.c.id in w.rows
    ensures var c, was := p.pc.c, w.rows[p.pc.c.id];
      var log := if a.reply.Done? then [a] else if b.reply.Done? then [a, b] else [a, b, e];
      var o := Replay(Outcome(w, p), Answers(log));
      var confirmed := a.reply.Done? || b.reply.Done? || e.reply.Done?;
      var effective := confirmed || a.reply.Lost? || b.reply.Lost? || e.reply.Lost?;
      && o.proc == p.(pc := Finish(if confirmed then None else Some(DatabaseError)))
      && o.world == w.(rows := if effective then w.rows[c.id := c.(owner := was.owner, createdAt := was.createdAt)] else w.rows)
  {
    var o := Outcome(w, p);
    NoAnswer(o);
    AnsweredOn(o, [], o, a);
    assert [] + [a] == [a] && [a] + [b] == [a, b] && [a, b] + [e] == [a, b, e];
    TryOnce(w, p, a);
    if !a.reply.Done? {
      var m := Work(w, p, a);
      TryOnce(m.world, m.proc, b);
      AnsweredOn(o, [a], m, b);
      if !b.reply.Done? {
        var n := Work(m.world, m.proc, b);
        TryOnce(n.world, n.proc, e);
        AnsweredOn(o, [a, b], n, e);
      }
    }
  }

  lemma TryOnce(w: World, p: Proc, a: Answer)
    requires p.Busy? && p.pc.WriteRow? && p.pc.c.id in w.rows && p.pc.tries < UPDATE_RETRIES
    ensures var c, was, o := p.pc.c, w.rows[p.pc.c.id], Work(w, p, a);
      && o.world == w.(rows := if a.reply.Refused? then w.rows else w.rows[c.id := c.(owner := was.owner, createdAt := was.createdAt)])
      && o.proc == p.(pc := if a.reply.Done? then Finish(None)
                            else if p.pc.tries + 1 == UPDATE_RETRIES then Finish(Some(DatabaseError)) else WriteRow(c, p.pc.tries + 1))
  {
  }
}
