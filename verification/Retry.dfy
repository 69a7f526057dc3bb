/** A DELETE job that failed half-way can be repeated to completion. */
module Retry {
  import opened Domain
  import opened Store
  import opened WorkerSteps

  lemma OneMore(o: Outcome, log: seq<Answer>, a: Answer)
    ensures Replay(o, Answers(log + [a])) == Meet(Replay(o, Answers(log)), Reply(a))
  {
    assert Answers(log + [a]) == Answers(log) + [Reply(a)];
    LastEvent(o, Answers(log), Reply(a));
  }

  /** A DELETE job whose row has a Docker ID, after its RUNNING write, its fetch and its removal
      request. Only an answered removal leads on, whether or not Docker still had the container. */
  lemma UpToRemoval(w: World, job: Job, mark: Answer, read: Answer, remove: Answer)
    requires job.kind == DeleteContainer && job.target in w.rows && w.rows[job.target].dockerId.Some?
    requires read.reply.Done?
    ensures var o, d := Replay(Begin(w, job), Answers([mark, read, remove])), w.rows[job.target].dockerId.value;
      && o.world.rows == w.rows && o.proc.Busy? && o.proc.job == job.(status := JobRunning)
      && o.world.jobs == UpdateJob(w, job.(status := JobRunning), mark.reply).jobs
      && o.world.docker == (if remove.reply.TookEffect() then w.docker - {d} else w.docker)
      && o.proc.pc == (if remove.reply.Done? then DropRow(0) else Finish(Some(RuntimeError)))
  {
    var o := Begin(w, job);
    assert Answers([]) == [];
    OneMore(o, [], mark);
    OneMore(o, [mark], read);
    OneMore(o, [mark, read], remove);
    assert [] + [mark] == [mark] && [mark] + [read] == [mark, read] && [mark, read] + [remove] == [mark, read, remove];
  }

  /** The calls of a DELETE whose row has a Docker ID: the row delete is reached only past an answered removal. */
  function DeleteLog(b: seq<Answer>): seq<Answer>
    requires |b| == 5
  {
    if b[2].reply.Done? then b else [b[0], b[1], b[2], b[4]]
  }

  /** With its reads and its row delete answered, a DELETE ends with SUCCESS, the row gone and its Docker
      container gone, exactly when Docker answers the removal, be it "removed" or "no such container".
      Otherwise it ends FAILED with the row as it was, even if there was nothing left to remove. */
  lemma DeleteSucceeds(w: World, job: Job, b: seq<Answer>)
    requires job.kind == DeleteContainer && job.id in w.jobs && job.target in w.rows && w.rows[job.target].dockerId.Some?
    requires |b| == 5 && b[1].reply.Done? && b[3].reply.Done? && b[4].reply.Done?
    ensures var o, d := Replay(Begin(w, job), Answers(DeleteLog(b))), w.rows[job.target].dockerId.value;
      && o.proc.Idle? && job.id in o.world.jobs
      && o.world.jobs[job.id].status == (if b[2].reply.Done? then JobSuccess else JobFailed)
      && o.world.rows == (if b[2].reply.Done? then w.rows - {job.target} else w.rows)
      && o.world.docker == (if b[2].reply.TookEffect() then w.docker - {d} else w.docker)
  {
    var o := Begin(w, job);
    UpToRemoval(w, job, b[0], b[1], b[2]);
    if b[2].reply.Done? {
      OneMore(o, b[..3], b[3]);
      OneMore(o, b[..4], b[4]);
      assert b[..3] == [b[0], b[1], b[2]] && b[..3] + [b[3]] == b[..4] && b[..4] + [b[4]] == b;
    } else {
      OneMore(o, [b[0], b[1], b[2]], b[4]);
      assert [b[0], b[1], b[2]] + [b[4]] == DeleteLog(b);
    }
  }

  /** A DELETE whose three row deletes all fail ends FAILED with the row as it was and the Docker
      container gone. The next DELETE of the container finds nothing to remove: it succeeds and the row
      goes if Docker answers its removal request, and only then. */
  lemma DeleteCanBeRepeated(w: World, first: Job, second: Job, a: seq<Answer>, b: seq<Answer>)
    requires first.kind == DeleteContainer == second.kind && first.target == second.target && first.id != second.id
    requires first.id in w.jobs && second.id in w.jobs && first.target in w.rows && w.rows[first.target].dockerId.Some?
    requires |a| == 7 && a[1].reply.Done? && a[2].reply.Done? && a[6].reply.Done?
    requires a[3].reply.Refused? && a[4].reply.Refused? && a[5].reply.Refused?
    requires |b| == 5 && b[1].reply.Done? && b[3].reply.Done? && b[4].reply.Done?
    ensures var m := Replay(Begin(w, first), Answers(a));
      && m.proc.Idle? && m.world.rows == w.rows && first.id in m.world.jobs && m.world.jobs[first.id].status == JobFailed
      && m.world.docker == w.docker - {w.rows[first.target].dockerId.value}
      && var o := Replay(Begin(m.world, second), Answers(DeleteLog(b)));
         && o.proc.Idle? && second.id in o.world.jobs && o.world.docker == m.world.docker
         && (b[2].reply.Done? ==> o.world.jobs[second.id].status == JobSuccess && o.world.rows == w.rows - {first.target})
         && (!b[2].reply.Done? ==> o.world.jobs[second.id].status == JobFailed && o.world.rows == w.rows)
  {
    var o := Begin(w, first);
    UpToRemoval(w, first, a[0], a[1], a[2]);
    FailedDrops(o, a);
    var m := Replay(o, Answers(a));
    DeleteSucceeds(m.world, second, b);
  }

  lemma FailedDrops(o: Outcome, a: seq<Answer>)
    requires |a| == 7 && a[3].reply.Refused? && a[4].reply.Refused? && a[5].reply.Refused?
    requires var r := Replay(o, Answers([a[0], a[1], a[2]])); r.proc.Busy? && r.proc.pc == DropRow(0)
    ensures var r := Replay(o, Answers([a[0], a[1], a[2]]));
      Replay(o, Answers(a)) ==
        Work(r.world, r.proc.(pc := Finish(Some(DatabaseError))), a[6])
  {
    OneMore(o, a[..3], a[3]);
    OneMore(o, a[..4], a[4]);
    OneMore(o, a[..5], a[5]);
    OneMore(o, a[..6], a[6]);
    assert a[..3] == [a[0], a[1], a[2]] && a[..3] + [a[3]] == a[..4] && a[..4] + [a[4]] == a[..5];
    assert a[..5] + [a[5]] == a[..6] && a[..6] + [a[6]] == a;
  }
}
