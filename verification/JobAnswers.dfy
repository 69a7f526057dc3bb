/** The schedule gives each job exactly the answers it got in the run. */
module JobAnswers {
  import opened Domain
  import opened Store
  import opened WorkerSteps
  import opened Protocol
  import opened Invariant
  import opened Accounting
  import opened ContainerTheorems
  import opened RowHistory
  import opened Slices
  import opened Schedules
  import opened Simulation
  import opened Tracking

  // ---------- the answers each job got ----------

  function Replies(log: seq<Event>): seq<Answer> {
    if log == [] then []
    else
      var last := log[|log| - 1];
      Replies(log[..|log| - 1]) + (if last.Reply? then [last.a] else [])
  }

  lemma RepliesMore(log: seq<Event>, e: Event)
    ensures Replies(log + [e]) == Replies(log) + (if e.Reply? then [e.a] else [])
  {
    assert (log + [e])[..|log|] == log;
  }

  /** The answers the schedule gives to job j. */
  function Given(items: seq<Item>, j: JobId): seq<Answer> {
    if items == [] then []
    else
      var last := items[|items| - 1];
      Given(items[..|items| - 1], j) + (if last.RunJob? && last.job.id == j then Replies(last.log) else [])
  }

  lemma GivenMore(items: seq<Item>, item: Item, j: JobId)
    ensures Given(items + [item], j) == Given(items, j) + (if item.RunJob? && item.job.id == j then Replies(item.log) else [])
  {
    assert (items + [item])[..|items|] == items;
  }

  function Noted(op: Open, j: JobId): seq<Answer> { if op.Open? && op.job.id == j then Replies(op.log) else [] }

  function AllNoted(open: seq<Open>, j: JobId): seq<Answer> {
    if open == [] then [] else Noted(open[0], j) + AllNoted(open[1..], j)
  }

  lemma {:induction false} NotedAlone(open: seq<Open>, i: nat, j: JobId)
    requires i < |open| && forall k :: 0 <= k < |open| && k != i ==> Noted(open[k], j) == []
    ensures AllNoted(open, j) == Noted(open[i], j)
  {
    assert forall k :: 1 <= k < |open| ==> open[1..][k - 1] == open[k];
    if i == 0 {
      NoneNoted(open[1..], j);
    } else {
      assert Noted(open[0], j) == [] && open[1..][i - 1] == open[i];
      NotedAlone(open[1..], i - 1, j);
    }
  }

  lemma {:induction false} NoneNoted(open: seq<Open>, j: JobId)
    requires forall k :: 0 <= k < |open| ==> Noted(open[k], j) == []
    ensures AllNoted(open, j) == []
  {
    if open != [] {
      assert Noted(open[0], j) == [];
      NoneNoted(open[1..], j);
    }
  }

  lemma {:induction false} NotedSame(open: seq<Open>, i: nat, op: Open, j: JobId)
    requires i < |open| && Noted(open[i], j) == Noted(op, j)
    ensures AllNoted(open[i := op], j) == AllNoted(open, j)
  {
    if i == 0 {
      assert open[i := op][1..] == open[1..];
    } else {
      assert open[i := op][1..] == open[1..][i - 1 := op];
      NotedSame(open[1..], i - 1, op, j);
    }
  }

  /** The answers job j has in the book so far. */
  function SoFar(b: Book, j: JobId): seq<Answer> { Given(b.done, j) + AllNoted(b.open, j) }

  /** The answer a step gives to job j. */
  function Hears(s: Sys, st: Step, j: JobId): seq<Answer>
    requires Enabled(s, st)
  {
    if st.Answered? && s.workers[st.i].job.id == j then [st.a] else []
  }

  /** The answers that job j gets during the run, after the earlier ones. */
  function AnswersTo(j: JobId, earlier: seq<Answer>, s: Sys, run: seq<Step>): seq<Answer>
    requires Feasible(s, run)
    decreases |run|
  {
    if run == [] then earlier else AnswersTo(j, earlier + Hears(s, run[0], j), Apply(s, run[0]), run[1..])
  }

  /** No other open job has the ID of the i-th. */
  predicate OpenAlone(b: Book, i: nat) {
    && i < |b.open| && b.open[i].Open?
    && forall k :: 0 <= k < |b.open| && k != i ==> Noted(b.open[k], b.open[i].job.id) == []
  }

  lemma WorkersApart(serial: World, s: Sys, b: Book, i: nat)
    requires Placed(s) && Simulates(serial, s, b) && i < |s.workers| && s.workers[i].Busy?
    ensures OpenAlone(b, i) && b.open[i].job.id == s.workers[i].job.id
  {
    assert OpenOk(serial, s.w, s.workers[i], b.open[i]);
    forall k | 0 <= k < |b.open| && k != i ensures Noted(b.open[k], b.open[i].job.id) == [] {
      assert OpenOk(serial, s.w, s.workers[k], b.open[k]);
    }
  }

  lemma JotAlone(b: Book, i: nat, e: Event)
    requires OpenAlone(b, i)
    ensures OpenAlone(Jot(b, i, e), i)
    ensures forall j :: Noted(Jot(b, i, e).open[i], j) ==
              Noted(b.open[i], j) + (if b.open[i].job.id == j && e.Reply? then [e.a] else [])
  {
    RepliesMore(b.open[i].log, e);
  }

  lemma JotHeard(b: Book, i: nat, e: Event, j: JobId)
    requires OpenAlone(b, i)
    ensures OpenAlone(Jot(b, i, e), i)
    ensures SoFar(Jot(b, i, e), j) == SoFar(b, j) + (if b.open[i].job.id == j && e.Reply? then [e.a] else [])
  {
    var b1 := Jot(b, i, e);
    JotAlone(b, i, e);
    if b.open[i].job.id == j {
      NotedAlone(b.open, i, j);
      NotedAlone(b1.open, i, j);
    } else {
      NotedSame(b.open, i, b1.open[i], j);
    }
  }

  lemma CloseHeard(b: Book, i: nat, j: JobId)
    requires OpenAlone(b, i)
    ensures SoFar(Close(b, i), j) == SoFar(b, j)
  {
    GivenMore(b.done, RunJob(b.open[i].job, b.open[i].log), j);
    assert Noted(Free, j) == [] && Close(b, i) == Book(b.done + [RunJob(b.open[i].job, b.open[i].log)], b.open[i := Free]);
    if b.open[i].job.id == j {
      NotedAlone(b.open, i, j);
      var closed := b.open[i := Free];
      assert forall k :: 0 <= k < |closed| ==> Noted(closed[k], j) == [];
      NoneNoted(closed, j);
    } else {
      NotedSame(b.open, i, Free, j);
    }
  }

  lemma HaltHeard(serial: World, s: Sys, b: Book, d: DockerId, j: JobId)
    requires Placed(s) && Simulates(serial, s, b)
    ensures SoFar(NoteHalt(b, s, d), j) == SoFar(b, j)
  {
    var i := Holder(s.workers, d.name);
    if i < |s.workers| {
      WorkersApart(serial, s, b, i);
      JotHeard(b, i, Stops(d), j);
    } else {
      GivenMore(b.done, Stop(d), j);
    }
  }

  lemma ServeHeard(b: Book, r: Request, reply: Reply, j: JobId)
    ensures SoFar(NoteServe(b, r, reply), j) == SoFar(b, j)
  {
    var b' := NoteServe(b, r, reply);
    if b'.done != b.done {
      assert b'.done == b.done + [b'.done[|b.done|]];
      GivenMore(b.done, b'.done[|b.done|], j);
    }
  }

  lemma AnswerHeard(serial: World, s: Sys, b: Book, i: nat, a: Answer, j: JobId)
    requires Placed(s) && Simulates(serial, s, b) && i < |s.workers| && s.workers[i].Busy?
    ensures SoFar(NoteAnswer(b, s, i, a), j) == SoFar(b, j) + (if s.workers[i].job.id == j then [a] else [])
  {
    WorkersApart(serial, s, b, i);
    JotHeard(b, i, Reply(a), j);
    CloseHeard(Jot(b, i, Reply(a)), i, j);
  }

  lemma CleanHeard(b: Book, now: Time, j: JobId)
    ensures SoFar(Do(b, Expire(now)), j) == SoFar(b, j)
  {
    GivenMore(b.done, Expire(now), j);
  }

  lemma TakeHeard(serial: World, s: Sys, b: Book, i: nat, j: JobId)
    requires Simulates(serial, s, b) && i < |s.workers| && s.workers[i].Idle? && |s.queue| > 0
    ensures SoFar(b.(open := b.open[i := Open(s.queue[0], [])]), j) == SoFar(b, j)
  {
    assert OpenOk(serial, s.w, s.workers[i], b.open[i]);
    NotedSame(b.open, i, Open(s.queue[0], []), j);
  }

  lemma NoteHeard(w0: World, s: Sys, b: Book, st: Step, j: JobId)
    requires Placed(s) && Simulates(PerformAll(w0, b.done), s, b) && Enabled(s, st)
    ensures SoFar(Note(s, st, b), j) == SoFar(b, j) + Hears(s, st, j)
  {
    match st
    case Take(i) => TakeHeard(PerformAll(w0, b.done), s, b, i, j);
    case Answered(i, a) => AnswerHeard(PerformAll(w0, b.done), s, b, i, a, j);
    case Halts(d) => HaltHeard(PerformAll(w0, b.done), s, b, d, j);
    case Serve(k, reply) => ServeHeard(b, s.reqs[k], reply, j);
    case Clean(reply) => CleanHeard(b, s.clock, j);
    case _ =>
  }

  lemma HeardOn(w0: World, s: Sys, b: Book, run: seq<Step>, j: JobId) returns (t: Sys, b': Book)
    requires Good(s) && Track(w0, s, b) && run != [] && Feasible(s, run) && AllOrderly(Final(s, run)) && Calm(run[0])
    ensures Good(t) && Track(w0, t, b') && Feasible(t, run[1..]) && Final(s, run) == Final(t, run[1..])
    ensures Schedule(s, run, b) == Schedule(t, run[1..], b')
    ensures AnswersTo(j, SoFar(b, j), s, run) == AnswersTo(j, SoFar(b', j), t, run[1..])
  {
    NoteHeard(w0, s, b, run[0], j);
    t, b' := TrackOn(w0, s, b, run);
  }

  lemma {:induction false} ScheduleHeard(w0: World, s: Sys, b: Book, run: seq<Step>, j: JobId)
    requires Good(s) && Track(w0, s, b) && Feasible(s, run) && AllOrderly(Final(s, run))
    requires forall k :: 0 <= k < |run| ==> Calm(run[k])
    ensures SoFar(Schedule(s, run, b), j) == AnswersTo(j, SoFar(b, j), s, run)
    decreases |run|
  {
    if run != [] {
      var t, b' := HeardOn(w0, s, b, run, j);
      ScheduleHeard(w0, t, b', run[1..], j);
    }
  }
}
