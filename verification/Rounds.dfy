/** Restart rounds: how a backlog of PENDING jobs larger than the channel is worked off by
    restarting the process, and that younger jobs cannot keep an older one waiting. */
module Rounds {
  import opened Domain
  import opened Store
  import opened WorkerSteps
  import opened Protocol
  import opened Invariant
  import opened Jobs
  import opened Drain
  import opened ContainerTheorems

  // ---------- what one start-up queues ----------

  lemma IdsMore(js: seq<Job>, job: Job)
    ensures Ids(js + [job]) == Ids(js) + {job.id}
  {
    var more := js + [job];
    assert more[|js|].id == job.id;
    forall j | j in Ids(js) ensures j in Ids(more) {
      var k :| 0 <= k < |js| && js[k].id == j;
      assert more[k].id == j;
    }
  }

  lemma {:induction false} IdsCount(js: seq<Job>)
    requires DistinctIds(js)
    ensures |Ids(js)| == |js|
  {
    if js == [] {
      assert Ids(js) == {};
    } else {
      var init, last := js[..|js| - 1], js[|js| - 1];
      IdsCount(init);
      assert js == init + [last];
      IdsMore(init, last);
      assert last.id !in Ids(init);
    }
  }

  lemma ListingIds(jobs: map<JobId, Job>, listing: seq<Job>)
    requires IsListing(jobs, listing) && forall j :: j in jobs ==> jobs[j].id == j
    ensures Ids(listing) == PendingJobs(jobs) && |listing| == |PendingJobs(jobs)|
  {
    IdsCount(listing);
    forall j ensures j in Ids(listing) <==> j in PendingJobs(jobs) {
      if j in PendingJobs(jobs) {
        assert jobs[j] in listing;
        var k :| 0 <= k < |listing| && listing[k] == jobs[j];
        assert listing[k].id == j;
      }
    }
  }

  /** These jobs, each once, in creation order. */
  predicate Lists(jobs: map<JobId, Job>, ids: set<JobId>, js: seq<Job>) {
    && DistinctIds(js)
    && (forall k :: 0 <= k < |js| ==> js[k].id in ids && js[k].id in jobs && js[k] == jobs[js[k].id])
    && (forall j :: j in ids && j in jobs ==> jobs[j] in js)
    && (forall a, b :: 0 <= a < b < |js| ==> js[a].createdAt <= js[b].createdAt)
  }

  lemma {:induction false} LatestOf(jobs: map<JobId, Job>, ids: set<JobId>) returns (m: JobId)
    requires ids != {} && ids <= jobs.Keys
    ensures m in ids && forall j :: j in ids ==> jobs[j].createdAt <= jobs[m].createdAt
    decreases |ids|
  {
    m :| m in ids;
    if ids != {m} {
      var rest := LatestOf(jobs, ids - {m});
      if jobs[m].createdAt <= jobs[rest].createdAt { m := rest; }
    }
  }

  lemma {:induction false} SomeList(jobs: map<JobId, Job>, ids: set<JobId>) returns (js: seq<Job>)
    requires ids <= jobs.Keys && forall j :: j in jobs ==> jobs[j].id == j
    ensures Lists(jobs, ids, js)
    decreases |ids|
  {
    if ids == {} {
      js := [];
    } else {
      var m := LatestOf(jobs, ids);
      var init := SomeList(jobs, ids - {m});
      js := init + [jobs[m]];
      assert js[|init|] == jobs[m] && forall k :: 0 <= k < |init| ==> js[k] == init[k];
      forall j | j in ids ensures jobs[j] in js { if j != m { assert jobs[j] in init; } }
    }
  }

  /** The PENDING rows can be listed in creation order, whatever the table holds. */
  lemma SomeListing(jobs: map<JobId, Job>) returns (listing: seq<Job>)
    requires forall j :: j in jobs ==> jobs[j].id == j
    ensures IsListing(jobs, listing)
  {
    listing := SomeList(jobs, PendingJobs(jobs));
  }

  /** The queue holds the oldest of the PENDING jobs, as many as the channel takes, in creation order,
      each as the image of its row and none twice. */
  predicate Oldest(jobs: map<JobId, Job>, queue: seq<Job>) {
    var pending := PendingJobs(jobs);
    && |queue| == (if |pending| < CHANNEL_CAPACITY then |pending| else CHANNEL_CAPACITY)
    && |Ids(queue)| == |queue| && Ids(queue) <= pending
    && (forall a, b :: 0 <= a < b < |queue| ==> queue[a].createdAt <= queue[b].createdAt)
    && (forall a, j :: 0 <= a < |queue| && j in pending - Ids(queue) ==> queue[a].createdAt <= jobs[j].createdAt)
    && (forall a :: 0 <= a < |queue| ==> queue[a].id in jobs && queue[a] == jobs[queue[a].id])
  }

  lemma InIds(js: seq<Job>, k: nat)
    requires k < |js|
    ensures js[k].id in Ids(js)
  {
  }

  lemma FittingOldest(jobs: map<JobId, Job>, listing: seq<Job>)
    requires IsListing(jobs, listing) && forall j :: j in jobs ==> jobs[j].id == j
    ensures Oldest(jobs, Fitting(listing))
  {
    var queue := Fitting(listing);
    ListingIds(jobs, listing);
    IdsCount(queue);
    assert forall a :: 0 <= a < |queue| ==> queue[a] == listing[a];
    forall a, j | 0 <= a < |queue| && j in PendingJobs(jobs) - Ids(queue) ensures queue[a].createdAt <= jobs[j].createdAt {
      assert jobs[j] in listing;
      var k :| 0 <= k < |listing| && listing[k] == jobs[j];
      assert k < |queue| ==> j in Ids(queue);
    }
    forall j | j in Ids(queue) ensures j in PendingJobs(jobs) {
      var k :| 0 <= k < |queue| && queue[k].id == j;
      InIds(listing, k);
    }
  }

  /** Start-up queues the oldest min(100, n) of the n PENDING jobs, in creation order, and strands
      exactly the others. */
  lemma OldestAreQueued(s: Sys, listing: seq<Job>)
    requires Reachable(s) && Enabled(s, Requeue(listing, |listing|))
    ensures var t := Apply(s, Requeue(listing, |listing|));
      && Oldest(s.w.jobs, t.queue)
      && t.hist.stranded == PendingJobs(s.w.jobs) - Ids(t.queue)
      && t.w == s.w
  {
    ReachableInv(s);
    assert listing[..|listing|] == listing;
    FittingOldest(s.w.jobs, listing);
  }

  // ---------- a round: start up, work the channel off, crash, recover ----------

  /** One life of the process: what the PENDING query returned, what happened until the crash, and
      how the next start-up's recovery statement is answered. */
  datatype Round = Round(listing: seq<Job>, run: seq<Step>, reply: Reply)

  function Started(s: Sys, r: Round): Sys { Boot(s, Fitting(r.listing)) }

  predicate RoundOk(s: Sys, r: Round) {
    && s.phase == Swept && IsListing(s.w.jobs, r.listing)
    && Feasible(Started(s, r), r.run) && (forall k :: 0 <= k < |r.run| ==> Calm(r.run[k]))
    && JobWritesSucceed(Started(s, r), r.run) && Drained(Final(Started(s, r), r.run))
  }

  function After(s: Sys, r: Round): Sys
    requires RoundOk(s, r)
  {
    SweepUp(Fall(Final(Started(s, r), r.run)), r.reply)
  }

  predicate RoundsOk(s: Sys, rs: seq<Round>)
    decreases |rs|
  {
    rs == [] || (RoundOk(s, rs[0]) && RoundsOk(After(s, rs[0]), rs[1..]))
  }

  lemma RoundInv(s: Sys, r: Round)
    requires Inv(s) && RoundOk(s, r)
    ensures Inv(Started(s, r)) && Inv(Final(Started(s, r), r.run)) && Inv(After(s, r))
  {
    var t := Final(Started(s, r), r.run);
    assert r.listing[..|r.listing|] == r.listing;
    BootInv(s, r.listing, |r.listing|);
    RunInv(Started(s, r), r.run);
    FallInv(t);
    SweepUpInv(Fall(t), r.reply);
  }

  lemma FallPending(t: Sys, reply: Reply)
    ensures var t' := SweepUp(Fall(t), reply);
      && t'.phase == Swept && t'.clock == t.clock
      && PendingJobs(t'.w.jobs) == PendingJobs(t.w.jobs)
      && (forall j :: j in PendingJobs(t.w.jobs) ==> t'.w.jobs[j] == t.w.jobs[j])
  {
  }

  // ---------- what a round does to the PENDING jobs ----------

  /** A PENDING job outside the process: neither in the channel nor in a worker nor in a request. */
  predicate Parked(s: Sys, j: JobId) {
    j in PendingJobs(s.w.jobs) && !Underway(s, j) && j !in s.reqs && s.w.jobs[j].id == j && j in s.hist.jobIds
  }

  lemma ParkedWork(s: Sys, i: nat, a: Answer, j: JobId)
    requires i < |s.workers| && s.workers[i].Busy? && Parked(s, j)
    ensures Parked(WorkOn(s, i, a), j) && WorkOn(s, i, a).w.jobs[j] == s.w.jobs[j]
  {
    assert Held(s.workers, s.workers[i].job.id);
    WorkOnJobs(s.w, s.workers[i], a);
    WorkOnProc(s.w, s.workers[i], a);
    HeldStep(s.workers, i, Work(s.w, s.workers[i], a).proc, j);
  }

  lemma ParkedServe(s: Sys, k: JobId, reply: Reply, j: JobId)
    requires k in s.reqs && s.reqs[k].job.id == k && Parked(s, j)
    ensures Parked(ServeNext(s, s.reqs[k], reply), j) && ServeNext(s, s.reqs[k], reply).w.jobs[j] == s.w.jobs[j]
  {
    ServeReach(s, s.reqs[k], reply);
    ServeAppends(s, s.reqs[k], reply);
  }

  lemma ParkedTake(s: Sys, i: nat, j: JobId)
    requires i < |s.workers| && s.workers[i].Idle? && |s.queue| > 0 && Parked(s, j)
    ensures Parked(TakeJob(s, i), j)
  {
    assert Queued(s.queue, s.queue[0].id);
    assert forall k :: 0 <= k < |s.queue| - 1 ==> s.queue[1..][k] == s.queue[k + 1];
  }

  lemma StepParked(s: Sys, st: Step, j: JobId)
    requires Keyed(s) && Enabled(s, st) && Calm(st) && Parked(s, j)
    ensures Parked(Apply(s, st), j) && Apply(s, st).w.jobs[j] == s.w.jobs[j]
  {
    match st
    case Serve(k, reply) => ParkedServe(s, k, reply, j);
    case Take(i) => ParkedTake(s, i, j);
    case Answered(i, a) => ParkedWork(s, i, a, j);
    case _ =>
  }

  lemma {:induction false} RunParked(s: Sys, run: seq<Step>, j: JobId)
    requires Inv(s) && Feasible(s, run) && (forall k :: 0 <= k < |run| ==> Calm(run[k])) && Parked(s, j)
    ensures j in Final(s, run).w.jobs && Final(s, run).w.jobs[j] == s.w.jobs[j]
    decreases |run|
  {
    if run != [] {
      StepInv(s, run[0]);
      StepParked(s, run[0], j);
      RunParked(Apply(s, run[0]), run[1..], j);
    }
  }

  /** Job rows that come up later are not older than the clock was. */
  predicate NewerThan(s: Sys, from: Time, ids: set<JobId>) {
    && from <= s.clock
    && (forall j :: j in s.reqs ==> from <= s.reqs[j].job.createdAt)
    && (forall j :: j in s.w.jobs && j !in ids ==> from <= s.w.jobs[j].createdAt)
  }

  lemma NewerServe(s: Sys, j: JobId, reply: Reply, from: Time, ids: set<JobId>)
    requires Keyed(s) && NewerThan(s, from, ids) && j in s.reqs
    ensures NewerThan(ServeNext(s, s.reqs[j], reply), from, ids)
  {
    var t := ServeNext(s, s.reqs[j], reply);
    ServeReach(s, s.reqs[j], reply);
    ServeDates(s, s.reqs[j], reply);
  }

  lemma ServeDates(s: Sys, r: Request, reply: Reply)
    ensures Redated(s, r, ServeNext(s, r, reply))
  {
    if r.stage.Insert? || r.stage.NewJob? { SaveDates(s, r, reply); }
  }

  predicate Redated(s: Sys, r: Request, t: Sys) {
    r.job.id in t.reqs && !(r.job.id in s.reqs && t.reqs[r.job.id] == s.reqs[r.job.id]) ==>
      t.reqs[r.job.id].job.createdAt == r.job.createdAt || t.reqs[r.job.id].job.createdAt == s.clock
  }

  lemma SaveDates(s: Sys, r: Request, reply: Reply)
    ensures Redated(s, r, SaveJob(s, r, reply))
  {
  }

  lemma StepNewer(s: Sys, st: Step, from: Time, ids: set<JobId>)
    requires Keyed(s) && NewerThan(s, from, ids) && Enabled(s, st) && Calm(st)
    ensures NewerThan(Apply(s, st), from, ids)
  {
    match st
    case Serve(j, reply) => NewerServe(s, j, reply, from, ids);
    case Answered(i, a) => WorkOnJobs(s.w, s.workers[i], a);
    case _ =>
  }

  lemma {:induction false} RunNewer(s: Sys, run: seq<Step>, from: Time, ids: set<JobId>)
    requires Inv(s) && NewerThan(s, from, ids) && Feasible(s, run) && forall k :: 0 <= k < |run| ==> Calm(run[k])
    ensures NewerThan(Final(s, run), from, ids)
    decreases |run|
  {
    if run != [] {
      StepInv(s, run[0]);
      StepNewer(s, run[0], from, ids);
      RunNewer(Apply(s, run[0]), run[1..], from, ids);
    }
  }

  /** A life of the process that starts with nothing but its queue. */
  predicate Lifetime(b: Sys, run: seq<Step>) {
    && Inv(b) && b.phase == Up && b.reqs == map[] && (forall i :: 0 <= i < |b.workers| ==> b.workers[i].Idle?)
    && Feasible(b, run) && (forall k :: 0 <= k < |run| ==> Calm(run[k]))
    && JobWritesSucceed(b, run) && Drained(Final(b, run))
  }

  lemma QueueEnds(b: Sys, run: seq<Step>, j: JobId)
    requires Lifetime(b, run) && j in Ids(b.queue)
    ensures j !in PendingJobs(Final(b, run).w.jobs)
  {
    assert Queued(b.queue, j);
    UnderwayOutside(b, j);
    RunHandled(b, run, j);
  }

  lemma OthersPark(b: Sys, run: seq<Step>, j: JobId)
    requires Lifetime(b, run) && j in b.w.jobs && j !in Ids(b.queue)
    ensures var t := Final(b, run);
      && (j in PendingJobs(t.w.jobs) <==> j in PendingJobs(b.w.jobs))
      && (j in PendingJobs(t.w.jobs) ==> t.w.jobs[j] == b.w.jobs[j])
  {
    if j in PendingJobs(b.w.jobs) {
      assert Parked(b, j);
      RunParked(b, run, j);
    } else {
      RunForward(b, run, j);
    }
  }

  /** A life takes exactly its queue away from the PENDING jobs there were; what it adds is not older
      than its start. */
  lemma LifePending(b: Sys, run: seq<Step>)
    requires Lifetime(b, run)
    ensures var now := PendingJobs(Final(b, run).w.jobs);
      && (forall j :: j in b.w.jobs ==> (j in now <==> j in PendingJobs(b.w.jobs) && j !in Ids(b.queue)))
      && (forall j :: j in now && j in b.w.jobs ==> Final(b, run).w.jobs[j] == b.w.jobs[j])
      && (forall j :: j in now && j !in b.w.jobs ==> b.clock <= Final(b, run).w.jobs[j].createdAt)
      && b.clock <= Final(b, run).clock
  {
    forall j | j in b.w.jobs && j !in Ids(b.queue)
      ensures j in PendingJobs(Final(b, run).w.jobs) <==> j in PendingJobs(b.w.jobs)
      ensures j in PendingJobs(Final(b, run).w.jobs) ==> Final(b, run).w.jobs[j] == b.w.jobs[j]
    {
      OthersPark(b, run, j);
    }
    forall j | j in Ids(b.queue) ensures j !in PendingJobs(Final(b, run).w.jobs) { QueueEnds(b, run, j); }
    RunNewer(b, run, b.clock, b.w.jobs.Keys);
  }

  predicate Passed(jobs: map<JobId, Job>, jobs': map<JobId, Job>, queue: seq<Job>, from: Time) {
    && (forall j :: j in jobs ==> (j in PendingJobs(jobs') <==> j in PendingJobs(jobs) && j !in Ids(queue)))
    && (forall j :: j in PendingJobs(jobs') && j in jobs ==> jobs'[j] == jobs[j])
    && (forall j :: j in PendingJobs(jobs') && j !in jobs ==> from <= jobs'[j].createdAt)
  }

  /** The same of a whole round. */
  lemma RoundPending(s: Sys, r: Round)
    requires Inv(s) && RoundOk(s, r)
    ensures Inv(After(s, r)) && s.clock <= After(s, r).clock
    ensures Passed(s.w.jobs, After(s, r).w.jobs, Fitting(r.listing), s.clock)
    ensures Oldest(s.w.jobs, Fitting(r.listing))
  {
    RoundInv(s, r);
    assert Lifetime(Started(s, r), r.run);
    LifePending(Started(s, r), r.run);
    FallPending(Final(Started(s, r), r.run), r.reply);
    FittingOldest(s.w.jobs, r.listing);
  }

  // ---------- how many rounds a backlog takes ----------

  /** Nothing is requested during the round. */
  predicate Quiet(r: Round) { forall k :: 0 <= k < |r.run| ==> Drains(r.run[k]) }

  lemma {:induction false} RunNoNew(s: Sys, run: seq<Step>)
    requires Feasible(s, run) && forall k :: 0 <= k < |run| ==> Drains(run[k])
    ensures Final(s, run).w.jobs.Keys <= s.w.jobs.Keys
    decreases |run|
  {
    if run != [] {
      if run[0].Answered? { WorkOnJobs(s.w, s.workers[run[0].i], run[0].a); }
      RunNoNew(Apply(s, run[0]), run[1..]);
    }
  }

  function Less(n: nat, m: nat): nat { if n < m then 0 else n - m }

  lemma QuietRound(s: Sys, r: Round)
    requires Inv(s) && RoundOk(s, r) && Quiet(r)
    ensures |PendingJobs(After(s, r).w.jobs)| == Less(|PendingJobs(s.w.jobs)|, CHANNEL_CAPACITY)
  {
    RoundPending(s, r);
    QuietKeys(s, r);
    PassedCount(s.w.jobs, After(s, r).w.jobs, Fitting(r.listing), s.clock);
  }

  lemma PassedCount(jobs: map<JobId, Job>, jobs': map<JobId, Job>, queue: seq<Job>, from: Time)
    requires Passed(jobs, jobs', queue, from) && Oldest(jobs, queue) && PendingJobs(jobs') <= jobs.Keys
    ensures |PendingJobs(jobs')| == Less(|PendingJobs(jobs)|, CHANNEL_CAPACITY)
  {
    assert PendingJobs(jobs') == PendingJobs(jobs) - Ids(queue);
    assert |PendingJobs(jobs) - Ids(queue)| == |PendingJobs(jobs)| - |Ids(queue)|;
  }

  lemma QuietKeys(s: Sys, r: Round)
    requires RoundOk(s, r) && Quiet(r)
    ensures PendingJobs(After(s, r).w.jobs) <= s.w.jobs.Keys
  {
    RunNoNew(Started(s, r), r.run);
    FallPending(Final(Started(s, r), r.run), r.reply);
  }

  function AfterAll(s: Sys, rs: seq<Round>): Sys
    requires RoundsOk(s, rs)
    decreases |rs|
  {
    if rs == [] then s else AfterAll(After(s, rs[0]), rs[1..])
  }

  lemma FirstRound(s: Sys, rs: seq<Round>) returns (t: Sys)
    requires Inv(s) && rs != [] && RoundsOk(s, rs) && Quiet(rs[0])
    ensures t == After(s, rs[0]) && Inv(t) && RoundsOk(t, rs[1..]) && AfterAll(s, rs) == AfterAll(t, rs[1..])
    ensures |PendingJobs(t.w.jobs)| == Less(|PendingJobs(s.w.jobs)|, CHANNEL_CAPACITY)
  {
    QuietRound(s, rs[0]);
    RoundInv(s, rs[0]);
    t := After(s, rs[0]);
  }

  lemma {:induction false} BacklogShrinks(s: Sys, rs: seq<Round>)
    requires Inv(s) && RoundsOk(s, rs) && forall k :: 0 <= k < |rs| ==> Quiet(rs[k])
    ensures |PendingJobs(AfterAll(s, rs).w.jobs)| == Less(|PendingJobs(s.w.jobs)|, CHANNEL_CAPACITY * |rs|)
    decreases |rs|
  {
    if rs != [] {
      var t := FirstRound(s, rs);
      BacklogShrinks(t, rs[1..]);
      LessTwice(|PendingJobs(s.w.jobs)|, CHANNEL_CAPACITY, CHANNEL_CAPACITY * |rs[1..]|);
    }
  }

  lemma LessTwice(n: nat, a: nat, b: nat)
    ensures Less(Less(n, a), b) == Less(n, a + b)
  {
  }

  /** There is such a round from every recovered state: the pool works off whatever was queued. */
  lemma RoundPossible(s: Sys) returns (r: Round)
    requires Reachable(s) && s.phase == Swept
    ensures RoundOk(s, r) && Quiet(r)
  {
    ReachableReleased(s);
    var listing := SomeListing(s.w.jobs);
    assert listing[..|listing|] == listing;
    BootInv(s, listing, |listing|);
    var run := RestFrom(Boot(s, Fitting(listing)));
    r := Round(listing, run, Done);
  }

  /** A backlog of n PENDING jobs without new requests is gone after ceil(n / 100) rounds, and not before. */
  lemma RoundsNeeded(s: Sys, rs: seq<Round>)
    requires Reachable(s) && RoundsOk(s, rs) && forall k :: 0 <= k < |rs| ==> Quiet(rs[k])
    ensures PendingJobs(AfterAll(s, rs).w.jobs) == {} <==> |rs| >= (|PendingJobs(s.w.jobs)| + CHANNEL_CAPACITY - 1) / CHANNEL_CAPACITY
  {
    ReachableInv(s);
    BacklogShrinks(s, rs);
  }

  // ---------- no starvation ----------

  /** The other PENDING jobs that are at least as old: the ones a listing may put first. */
  function Elders(jobs: map<JobId, Job>, j: JobId): set<JobId>
    requires j in jobs
  {
    set k | k in PendingJobs(jobs) && k != j && jobs[k].createdAt <= jobs[j].createdAt
  }

  /** One of the next `within` start-ups queues the job. */
  predicate QueuedWithin(s: Sys, rs: seq<Round>, j: JobId, within: nat)
    requires RoundsOk(s, rs)
    decreases |rs|
  {
    && rs != [] && within > 0
    && (j in Ids(Fitting(rs[0].listing)) || QueuedWithin(After(s, rs[0]), rs[1..], j, within - 1))
  }

  lemma {:induction false} QueuedLater(s: Sys, rs: seq<Round>, j: JobId, within: nat, more: nat)
    requires RoundsOk(s, rs) && QueuedWithin(s, rs, j, within) && within <= more
    ensures QueuedWithin(s, rs, j, more)
    decreases |rs|
  {
    if j !in Ids(Fitting(rs[0].listing)) { QueuedLater(After(s, rs[0]), rs[1..], j, within - 1, more - 1); }
  }

  /** A job that is passed over stays PENDING, and a hundred of its elders are gone. */
  lemma PassedOver(jobs: map<JobId, Job>, jobs': map<JobId, Job>, queue: seq<Job>, from: Time, j: JobId)
    requires Passed(jobs, jobs', queue, from) && Oldest(jobs, queue)
    requires j in PendingJobs(jobs) && j !in Ids(queue) && jobs[j].createdAt < from
    ensures j in PendingJobs(jobs') && jobs'[j] == jobs[j]
    ensures |Elders(jobs', j)| + CHANNEL_CAPACITY <= |Elders(jobs, j)|
  {
    var was, now := Elders(jobs, j), Elders(jobs', j);
    assert |queue| == CHANNEL_CAPACITY by {
      if |PendingJobs(jobs)| < CHANNEL_CAPACITY { SubsetFull(Ids(queue), PendingJobs(jobs)); }
    }
    forall k | k in Ids(queue) ensures k in was {
      var n :| 0 <= n < |queue| && queue[n].id == k;
      assert queue[n].createdAt <= jobs[j].createdAt;
    }
    forall k | k in now ensures k in was - Ids(queue) {
      assert k in PendingJobs(jobs') && k in jobs;
    }
    SubsetCount(now, was - Ids(queue));
    assert |was - Ids(queue)| == |was| - |Ids(queue)|;
  }

  lemma {:induction false} SubsetCount(a: set<JobId>, b: set<JobId>)
    requires a <= b
    ensures |a| <= |b|
  {
    assert b == a + (b - a);
  }

  lemma SubsetFull(a: set<JobId>, b: set<JobId>)
    requires a <= b && |a| == |b|
    ensures a == b
  {
    assert b == a + (b - a);
    assert |b - a| == 0;
  }

  lemma {:induction false} PatienceFrom(s: Sys, rs: seq<Round>, j: JobId)
    requires Inv(s) && RoundsOk(s, rs)
    requires j in PendingJobs(s.w.jobs) && s.w.jobs[j].createdAt < s.clock
    requires |rs| > |Elders(s.w.jobs, j)| / CHANNEL_CAPACITY
    ensures QueuedWithin(s, rs, j, |Elders(s.w.jobs, j)| / CHANNEL_CAPACITY + 1)
    decreases |rs|
  {
    if j !in Ids(Fitting(rs[0].listing)) {
      var t := After(s, rs[0]);
      RoundPending(s, rs[0]);
      PassedOver(s.w.jobs, t.w.jobs, Fitting(rs[0].listing), s.clock, j);
      PatienceFrom(t, rs[1..], j);
      QueuedLater(t, rs[1..], j, |Elders(t.w.jobs, j)| / CHANNEL_CAPACITY + 1, |Elders(s.w.jobs, j)| / CHANNEL_CAPACITY);
    }
  }

  /** A PENDING job with r elders is queued by one of the next floor(r / 100) + 1 start-ups, however
      many younger jobs are requested in between. */
  lemma NoStarvation(s: Sys, rs: seq<Round>, j: JobId)
    requires Reachable(s) && RoundsOk(s, rs)
    requires j in PendingJobs(s.w.jobs) && s.w.jobs[j].createdAt < s.clock
    requires |rs| > |Elders(s.w.jobs, j)| / CHANNEL_CAPACITY
    ensures QueuedWithin(s, rs, j, |Elders(s.w.jobs, j)| / CHANNEL_CAPACITY + 1)
  {
    ReachableInv(s);
    PatienceFrom(s, rs, j);
  }
}
