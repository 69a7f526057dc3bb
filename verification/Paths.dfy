/** Straight executions: what one job does when the calls it makes are answered in the usual way. */
module Paths {
  import opened Domain
  import opened Store
  import opened WorkerSteps

  function Ok(d: DockerId, now: Time): Event { Reply(Answer(Done, d, now)) }

  function Say(reply: Reply, d: DockerId, now: Time): Event { Reply(Answer(reply, d, now)) }

  /** A CREATE job up to the wait for its Docker container d, which has been started. */
  function LaunchLog(d: DockerId, mark: Reply, now: Time): seq<Event> {
    [Say(mark, d, now), Ok(d, now), Ok(d, now), Ok(d, now), Ok(d, now)]
  }

  /** The rest of it: either the container stops and the wait ends, or the wait times out and an
      inspection follows; then the row write and the final job write. */
  function SettleLog(d: DockerId, stops: bool, end: Reply, now: Time): seq<Event> {
    if stops then [Stops(d), Ok(d, now), Ok(d, now), Say(end, d, now)]
    else [Say(Refused, d, now), Ok(d, now), Ok(d, now), Say(end, d, now)]
  }

  predicate Creatable(w: World, job: Job, d: DockerId) {
    && job.kind == CreateContainer && job.target in w.rows && w.rows[job.target].id == job.target
    && d.name == job.target && d !in w.made && !NameTaken(w, job.target)
  }

  /** What the RUNNING write leaves of the world. */
  function Marked(w: World, job: Job, mark: Reply): World { UpdateJob(w, job.(status := JobRunning), mark) }

  lemma LaunchPath(w: World, job: Job, d: DockerId, mark: Reply, now: Time)
    requires Creatable(w, job, d)
    ensures Leads(Begin(w, job), LaunchLog(d, mark, now), Outcome(
        w.(jobs := Marked(w, job, mark).jobs, docker := w.docker[d := true], made := w.made + {d}),
        Busy(job.(status := JobRunning), WaitExit(w.rows[job.target].(dockerId := Some(d)), d), RowOf(w, job.target))))
  {
    var o, c := Begin(w, job), w.rows[job.target];
    var e, ok := Say(mark, d, now), Ok(d, now);
    var v, p := Marked(w, job, mark), Busy(job.(status := JobRunning), DockerCreate(c), RowOf(w, job.target));
    LaunchPart(w, job, d, mark, now);
    LeadsOn(o, [e, ok, ok], Outcome(v, p), ok);
    assert [e, ok, ok] + [ok] == [e, ok, ok, ok];
    LeadsOn(o, [e, ok, ok, ok], Outcome(Provide(v, d), p.(pc := FirstStart(c, d))), ok);
    assert [e, ok, ok, ok] + [ok] == LaunchLog(d, mark, now);
    assert w.docker[d := false][d := true] == w.docker[d := true];
  }

  lemma LaunchPart(w: World, job: Job, d: DockerId, mark: Reply, now: Time)
    requires Creatable(w, job, d)
    ensures var e, ok := Say(mark, d, now), Ok(d, now);
      Leads(Begin(w, job), [e, ok, ok], Outcome(Marked(w, job, mark),
        Busy(job.(status := JobRunning), DockerCreate(w.rows[job.target]), RowOf(w, job.target))))
  {
    var o, c := Begin(w, job), w.rows[job.target];
    var e, ok := Say(mark, d, now), Ok(d, now);
    var v, p := Marked(w, job, mark), Busy(job.(status := JobRunning), Fetch, RowOf(w, job.target));
    LeadsOn(o, [], o, e);
    assert [] + [e] == [e];
    LeadsOn(o, [e], Outcome(v, p), ok);
    assert [e] + [ok] == [e, ok];
    LeadsOn(o, [e, ok], Outcome(v, p.(pc := Mkdir(c))), ok);
    assert [e, ok] + [ok] == [e, ok, ok];
  }

  /** What the row says once the job has settled. */
  function Settled(c: Container, stops: bool, now: Time): Container {
    c.(status := if stops then Exited else Running, updatedAt := now)
  }

  lemma SettlePath(w: World, p: Proc, d: DockerId, stops: bool, end: Reply, now: Time)
    requires p.Busy? && p.pc.WaitExit? && p.pc.d == d && p.pc.c.id in w.rows
    requires IsRunning(w, d)
    ensures var c := Settled(p.pc.c, stops, now);
      Leads(Outcome(w, p), SettleLog(d, stops, end, now), Outcome(
        w.(rows := UpdateRow(w, c, Done).rows, jobs := UpdateJob(w, Closed(p.job, None, now), end).jobs,
           docker := if stops then w.docker[d := false] else w.docker), Idle))
  {
    var o, ok, last := Outcome(w, p), Ok(d, now), Say(end, d, now);
    var c, first := Settled(p.pc.c, stops, now), if stops then Stops(d) else Say(Refused, d, now);
    LeadsOn(o, [], o, first);
    assert [] + [first] == [first];
    var m := Meet(o, first);
    LeadsOn(o, [first], m, ok);
    assert [first] + [ok] == [first, ok];
    var r := Outcome(m.world, p.(pc := WriteRow(c, 0)));
    assert Meet(m, ok) == r;
    LeadsOn(o, [first, ok], r, ok);
    assert [first, ok] + [ok] == [first, ok, ok];
    LeadsOn(o, [first, ok, ok], Outcome(UpdateRow(m.world, c, Done), p.(pc := Finish(None))), last);
    assert [first, ok, ok] + [last] == SettleLog(d, stops, end, now);
  }

  /** Or it stops after the wait has timed out, and the inspection tells: that is recorded as well. */
  lemma InspectedExitPath(w: World, p: Proc, d: DockerId, end: Reply, now: Time)
    requires p.Busy? && p.pc.WaitExit? && p.pc.d == d && p.pc.c.id in w.rows && d in w.docker
    requires p.job.id in w.jobs && end.TookEffect()
    ensures var log := [Say(Refused, d, now), Stops(d), Ok(d, now), Ok(d, now), Say(end, d, now)];
      var r := Replay(Outcome(w, p), log);
      && Legal(Outcome(w, p), log) && r.proc.Idle?
      && RowOf(r.world, p.pc.c.id) ==
         Some(p.pc.c.(status := Exited, updatedAt := now, owner := w.rows[p.pc.c.id].owner, createdAt := w.rows[p.pc.c.id].createdAt))
      && r.world.docker == w.docker[d := false]
      && p.job.id in r.world.jobs && r.world.jobs[p.job.id].status == JobSuccess
  {
    var o, ok, first := Outcome(w, p), Ok(d, now), Say(Refused, d, now);
    var v, c := Halt(w, d), p.pc.c.(status := Exited, updatedAt := now);
    LeadsOn(o, [], o, first);
    assert [] + [first] == [first];
    LeadsOn(o, [first], Outcome(w, p.(pc := Inspect(p.pc.c, d))), Stops(d));
    assert [first] + [Stops(d)] == [first, Stops(d)];
    LeadsOn(o, [first, Stops(d)], Outcome(v, p.(pc := Inspect(p.pc.c, d))), ok);
    assert [first, Stops(d)] + [ok] == [first, Stops(d), ok];
    LeadsOn(o, [first, Stops(d), ok], Outcome(v, p.(pc := WriteRow(c, 0))), ok);
    assert [first, Stops(d), ok] + [ok] == [first, Stops(d), ok, ok];
    LeadsOn(o, [first, Stops(d), ok, ok], Outcome(UpdateRow(v, c, Done), p.(pc := Finish(None))), Say(end, d, now));
    assert [first, Stops(d), ok, ok] + [Say(end, d, now)] == [first, Stops(d), ok, ok, Say(end, d, now)];
  }

  // ---------- START and STOP ----------

  /** A job of the container that reaches its one Docker call, and the answer to it. */
  function CallLog(d: DockerId, mark: Reply, call: Reply, now: Time): seq<Event> {
    [Say(mark, d, now), Ok(d, now), Say(call, d, now)]
  }

  predicate HasDocker(w: World, job: Job, d: DockerId) {
    && job.target in w.rows && w.rows[job.target].id == job.target && w.rows[job.target].dockerId == Some(d)
    && (d in w.docker || job.kind == DeleteContainer)
  }

  lemma UpToCall(w: World, job: Job, d: DockerId, mark: Reply, now: Time)
    requires HasDocker(w, job, d)
    ensures Leads(Begin(w, job), [Say(mark, d, now), Ok(d, now)], Outcome(Marked(w, job, mark),
        Busy(job.(status := JobRunning), Dispatch(job.kind, w.rows[job.target]), RowOf(w, job.target))))
  {
    var o, e, ok := Begin(w, job), Say(mark, d, now), Ok(d, now);
    LeadsOn(o, [], o, e);
    assert [] + [e] == [e];
    LeadsOn(o, [e], Outcome(Marked(w, job, mark), Busy(job.(status := JobRunning), Fetch, RowOf(w, job.target))), ok);
    assert [e] + [ok] == [e, ok];
  }

  /** A START whose request Docker confirms has the container running, and waits for it; one whose
      confirmation is lost has it running and ends as a runtime error all the same; a refused one ends so
      too, and has changed nothing but the job row. */
  lemma StartPath(w: World, job: Job, d: DockerId, mark: Reply, call: Reply, now: Time)
    requires job.kind == StartContainer && HasDocker(w, job, d)
    ensures var c, p := w.rows[job.target], Busy(job.(status := JobRunning), Mark, RowOf(w, job.target));
      Leads(Begin(w, job), CallLog(d, mark, call, now),
        if call.Done? then Outcome(Marked(w, job, mark).(docker := w.docker[d := true]), p.(pc := WaitExit(c, d)))
        else Outcome(Marked(w, job, mark).(docker := if call.Lost? then w.docker[d := true] else w.docker),
                     p.(pc := Finish(Some(RuntimeError)))))
  {
    var o, e, ok, last := Begin(w, job), Say(mark, d, now), Ok(d, now), Say(call, d, now);
    var p := Busy(job.(status := JobRunning), DockerStart(w.rows[job.target], d), RowOf(w, job.target));
    UpToCall(w, job, d, mark, now);
    LeadsOn(o, [e, ok], Outcome(Marked(w, job, mark), p), last);
    assert [e, ok] + [last] == CallLog(d, mark, call, now);
  }

  /** A STOP whose request Docker confirms has the container stopped and is about to record Exited. */
  lemma StopPath(w: World, job: Job, d: DockerId, mark: Reply, now: Time)
    requires job.kind == StopContainer && HasDocker(w, job, d)
    ensures var c := w.rows[job.target].(status := Exited, updatedAt := now);
      Leads(Begin(w, job), CallLog(d, mark, Done, now), Outcome(Marked(w, job, mark).(docker := w.docker[d := false]),
        Busy(job.(status := JobRunning), WriteRow(c, 0), RowOf(w, job.target))))
  {
    var o, e, ok := Begin(w, job), Say(mark, d, now), Ok(d, now);
    var p := Busy(job.(status := JobRunning), DockerStop(w.rows[job.target], d), RowOf(w, job.target));
    UpToCall(w, job, d, mark, now);
    LeadsOn(o, [e, ok], Outcome(Marked(w, job, mark), p), ok);
    assert [e, ok] + [ok] == CallLog(d, mark, Done, now);
  }

  /** The row write that succeeds at the (failures + 1)-th try, and the final write. */
  function WriteLog(d: DockerId, failures: nat, end: Reply, now: Time): seq<Event> {
    Refusals(d, failures, now) + [Ok(d, now), Say(end, d, now)]
  }

  function Refusals(d: DockerId, n: nat, now: Time): seq<Event> {
    if n == 0 then [] else Refusals(d, n - 1, now) + [Say(Refused, d, now)]
  }

  lemma OneRetry(w: World, p: Proc, d: DockerId, c: Container, k: nat, now: Time)
    requires p.Busy? && k + 1 < UPDATE_RETRIES
    ensures Meet(Outcome(w, p.(pc := WriteRow(c, k))), Say(Refused, d, now)) == Outcome(w, p.(pc := WriteRow(c, k + 1)))
  {
  }

  lemma {:induction false} Retries(o: Outcome, d: DockerId, c: Container, failures: nat, now: Time)
    requires o.proc.Busy? && o.proc.pc == WriteRow(c, 0) && failures < UPDATE_RETRIES
    ensures Leads(o, Refusals(d, failures, now), Outcome(o.world, o.proc.(pc := WriteRow(c, failures))))
  {
    if failures > 0 {
      Retries(o, d, c, failures - 1, now);
      OneRetry(o.world, o.proc, d, c, failures - 1, now);
      LeadsOn(o, Refusals(d, failures - 1, now), Outcome(o.world, o.proc.(pc := WriteRow(c, failures - 1))), Say(Refused, d, now));
    }
  }

  /** Up to two refused tries do not matter: the row is written as the worker has it, and the job closed. */
  lemma WritePath(w: World, p: Proc, d: DockerId, failures: nat, end: Reply, now: Time)
    requires p.Busy? && p.pc.WriteRow? && p.pc.tries == 0 && p.pc.c.id in w.rows && failures < UPDATE_RETRIES
    ensures Leads(Outcome(w, p), WriteLog(d, failures, end, now), Outcome(
        w.(rows := w.rows[p.pc.c.id := RowColumns(w.rows[p.pc.c.id], p.pc.c)],
           jobs := UpdateJob(w, Closed(p.job, None, now), end).jobs), Idle))
  {
    var o, c, log, ok, last := Outcome(w, p), p.pc.c, Refusals(d, failures, now), Ok(d, now), Say(end, d, now);
    Retries(o, d, c, failures, now);
    LeadsOn(o, log, Outcome(w, p.(pc := WriteRow(c, failures))), ok);
    LeadsOn(o, log + [ok], Outcome(UpdateRow(w, c, Done), p.(pc := Finish(None))), last);
    assert (log + [ok]) + [last] == WriteLog(d, failures, end, now);
  }
}
