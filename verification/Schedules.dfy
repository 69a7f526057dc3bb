/** The serial schedule that is read off an interleaved run. */
module Schedules {
  import opened Domain
  import opened Store
  import opened WorkerSteps
  import opened Protocol
  import opened RowHistory

  // ---------- the serial schedule of a run ----------

  /** The items of a serial schedule: a whole job, or a change that is a single step anyway. */
  datatype Item =
    | RunJob(job: Job, log: seq<Event>)
    | Stop(d: DockerId)
    | AddRow(row: Container)
    | AddJob(job: Job)
    | Expire(now: Time)

  function Perform(w: World, item: Item): World {
    match item
    case RunJob(job, log) => Replay(Begin(w, job), log).world
    case Stop(d) => Halt(w, d)
    case AddRow(row) => w.(rows := w.rows[row.id := row])
    case AddJob(job) => w.(jobs := w.jobs[job.id := job])
    case Expire(now) => w.(jobs := DeleteExpired(w.jobs, now))
  }

  function PerformAll(w: World, items: seq<Item>): World {
    if items == [] then w else Perform(PerformAll(w, items[..|items| - 1]), items[|items| - 1])
  }

  /** Every item can be performed where it stands: a job is run from its RUNNING write until the worker
      is idle again, within the contract of the environment; nothing is added twice. */
  predicate Playable(w: World, item: Item) {
    match item
    case RunJob(job, log) => Legal(Begin(w, job), log) && Replay(Begin(w, job), log).proc.Idle?
    case Stop(d) => d in w.docker
    case AddRow(row) => row.id !in w.rows
    case AddJob(job) => job.id !in w.jobs
    case Expire(_) => true
  }

  predicate AllPlayable(w: World, items: seq<Item>) {
    items != [] ==>
      && AllPlayable(w, items[..|items| - 1])
      && Playable(PerformAll(w, items[..|items| - 1]), items[|items| - 1])
  }

  lemma PerformMore(w: World, items: seq<Item>, item: Item)
    ensures PerformAll(w, items + [item]) == Perform(PerformAll(w, items), item)
    ensures AllPlayable(w, items + [item]) <==> AllPlayable(w, items) && Playable(PerformAll(w, items), item)
  {
    assert (items + [item])[..|items|] == items;
  }

  /** What the scheduler keeps while it reads a run: the items so far, and for each busy worker
      the job it was handed with what it has met. */
  datatype Open = Free | Open(job: Job, log: seq<Event>)

  datatype Book = Book(done: seq<Item>, open: seq<Open>)

  function Holder(workers: seq<Proc>, c: ContainerId): (i: nat)
    ensures i <= |workers|
    ensures i < |workers| <==> BusyOn(workers, c)
    ensures i < |workers| ==> workers[i].Busy? && workers[i].job.target == c
  {
    if workers == [] then 0
    else
      var last := |workers| - 1;
      var i := Holder(workers[..last], c);
      assert BusyOn(workers[..last], c) ==> BusyOn(workers, c);
      assert BusyOn(workers, c) && !(workers[last].Busy? && workers[last].job.target == c) ==> BusyOn(workers[..last], c);
      if i < last then i
      else if workers[last].Busy? && workers[last].job.target == c then last
      else |workers|
  }

  function Jot(b: Book, i: nat, e: Event): Book
    requires i < |b.open|
  {
    if b.open[i].Open? then b.(open := b.open[i := b.open[i].(log := b.open[i].log + [e])]) else b
  }

  function Close(b: Book, i: nat): Book
    requires i < |b.open|
  {
    if b.open[i].Open? then Book(b.done + [RunJob(b.open[i].job, b.open[i].log)], b.open[i := Free]) else b
  }

  function Do(b: Book, item: Item): Book { b.(done := b.done + [item]) }

  function NoteServe(b: Book, r: Request, reply: Reply): Book {
    if !reply.TookEffect() then b
    else match r.stage
         case NewRow(row) => Do(b, AddRow(row))
         case Insert(_) => Do(b, AddJob(r.job))
         case NewJob => Do(b, AddJob(r.job))
         case _ => b
  }

  function NoteAnswer(b: Book, s: Sys, i: nat, a: Answer): Book
    requires i < |s.workers| == |b.open| && s.workers[i].Busy?
  {
    if s.workers[i].pc.Finish? then Close(Jot(b, i, Reply(a)), i) else Jot(b, i, Reply(a))
  }

  /** A Docker container that stops during a job on it is part of what that job meets. */
  function NoteHalt(b: Book, s: Sys, d: DockerId): Book
    requires |s.workers| == |b.open|
  {
    var i := Holder(s.workers, d.name);
    if i < |s.workers| then Jot(b, i, Stops(d)) else Do(b, Stop(d))
  }

  function Note(s: Sys, st: Step, b: Book): (b': Book)
    requires Enabled(s, st) && |b.open| == |s.workers|
    ensures |b'.open| == |b.open|
  {
    match st
    case Take(i) => b.(open := b.open[i := Open(s.queue[0], [])])
    case Answered(i, a) => NoteAnswer(b, s, i, a)
    case Halts(d) => NoteHalt(b, s, d)
    case Serve(j, reply) => NoteServe(b, s.reqs[j], reply)
    case Clean(reply) => if reply.TookEffect() then Do(b, Expire(s.clock)) else b
    case _ => b
  }
}
