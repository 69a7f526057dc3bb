/** The job and container tables as the repositories use them, one statement per method. What the
    database answers is up to the environment: a statement can fail with or without effect. */
module Repositories {
  import opened Domain
  import opened Store
  import opened Protocol
  import opened Environments

  class JobRepository {
    const env: Environment
    var jobs: map<JobId, Job>

    constructor (env: Environment)
      ensures this.env == env && jobs == map[]
    {
      this.env, jobs := env, map[];
    }

    /** INSERT: refused when the ID is taken. */
    method Save(job: Job) returns (reply: Reply)
      modifies this, env
      ensures env.asked == old(env.asked) + 1
      ensures reply == if job.id in old(jobs) then Refused else old(env.Next(0))
      ensures jobs == if reply.TookEffect() then old(jobs)[job.id := job] else old(jobs)
    {
      var r := env.Ask();
      reply := r.reply;
      if job.id in jobs { reply := Refused; }
      if reply.TookEffect() { jobs := jobs[job.id := job]; }
    }

    /** UPDATE of the three progress columns; a missing row is an error too. */
    method Update(job: Job) returns (ok: bool)
      modifies this, env
      ensures env.asked == old(env.asked) + 1
      ensures ok <==> old(env.Next(0)).Done? && job.id in old(jobs)
      ensures jobs == if old(env.Next(0)).TookEffect() && job.id in old(jobs)
                      then old(jobs)[job.id := JobColumns(old(jobs)[job.id], job)] else old(jobs)
    {
      var r := env.Ask();
      ok := r.reply.Done? && job.id in jobs;
      if r.reply.TookEffect() && job.id in jobs { jobs := jobs[job.id := JobColumns(jobs[job.id], job)]; }
    }

    /** One active job of the container, if there is any; an unanswered query finds nothing. */
    method FindPendingOrRunningByTarget(c: ContainerId) returns (found: Option<Job>, reply: Reply)
      modifies env
      ensures env.asked == old(env.asked) + 1 && reply == old(env.Next(0))
      ensures found.Some? <==> reply.Done? && exists j :: j in jobs && jobs[j].target == c && jobs[j].Active()
      ensures found.Some? ==> found.value in jobs.Values && found.value.target == c && found.value.Active()
    {
      var r := env.Ask();
      reply := r.reply;
      found := None;
      if reply.Done? {
        if j :| j in jobs && jobs[j].target == c && jobs[j].Active() { found := Some(jobs[j]); }
      }
    }

    /** Reads the cursor of the query for PENDING rows in creation order. After `readable` rows there is
        trouble: a row that cannot be scanned loses the whole result, a broken connection the rest of it. */
    method FindPendingJobs(cursor: seq<Job>, readable: nat, garbled: bool) returns (found: seq<Job>, ok: bool)
      requires IsListing(jobs, cursor)
      ensures ok <==> readable >= |cursor|
      ensures found == if ok then cursor else if garbled then [] else cursor[..readable]
    {
      found := [];
      while |found| < |cursor|
        invariant found <= cursor && |found| <= readable
      {
        if |found| == readable {
          return if garbled then [] else found, false;
        }
        found := found + [cursor[|found|]];
      }
      ok := true;
    }

    method MarkRunningAsFailed() returns (reply: Reply)
      modifies this, env
      ensures env.asked == old(env.asked) + 1 && reply == old(env.Next(0))
      ensures jobs == if reply.TookEffect() then Protocol.MarkRunningAsFailed(old(jobs)) else old(jobs)
    {
      var r := env.Ask();
      reply := r.reply;
      if reply.TookEffect() {
        jobs := map j | j in jobs ::
          if jobs[j].status == JobRunning then jobs[j].(status := JobFailed, error := Some(Interrupted)) else jobs[j];
      }
    }

    /** Deletes what ended longer ago than the retention; the count is reported with the answer. */
    method DeleteExpired(now: Time) returns (count: nat, reply: Reply)
      modifies this, env
      ensures env.asked == old(env.asked) + 1 && reply == old(env.Next(0))
      ensures jobs == if reply.TookEffect() then Protocol.DeleteExpired(old(jobs), now) else old(jobs)
      ensures count == if reply.Done? then |old(jobs)| - |jobs| else 0
    {
      var r := env.Ask();
      reply := r.reply;
      count := 0;
      if reply.TookEffect() {
        var kept := map j | j in jobs && !Expired(jobs[j], now) :: jobs[j];
        assert jobs.Keys == kept.Keys + (jobs.Keys - kept.Keys);
        if reply.Done? { count := |jobs| - |kept|; }
        jobs := kept;
      }
    }
  }

  datatype SaveError = Duplicate | Unavailable

  class ContainerRepository {
    const env: Environment
    var rows: map<ContainerId, Container>

    constructor (env: Environment)
      ensures this.env == env && rows == map[]
    {
      this.env, rows := env, map[];
    }

    /** The row breaks a unique constraint: its ID, or its pair of owner and name, is taken. */
    predicate Clashes(c: Container)
      reads this
    {
      c.id in rows || exists e :: e in rows && rows[e].owner == c.owner && rows[e].name == c.name
    }

    /** INSERT: the pair of owner and name is unique. A conflict is reported as such. */
    method Save(c: Container) returns (error: Option<SaveError>, reply: Reply)
      modifies this, env
      ensures env.asked == old(env.asked) + 1
      ensures reply == if old(Clashes(c)) then Refused else old(env.Next(0))
      ensures rows == if reply.TookEffect() then old(rows)[c.id := c] else old(rows)
      ensures error == if !old(env.Next(0)).Done? then Some(Unavailable) else if old(Clashes(c)) then Some(Duplicate) else None
    {
      var clash := Clashes(c);
      var r := env.Ask();
      reply := r.reply;
      error := if !reply.Done? then Some(Unavailable) else if clash then Some(Duplicate) else None;
      if clash { reply := Refused; }
      if reply.TookEffect() { rows := rows[c.id := c]; }
    }

    method FindByID(c: ContainerId) returns (found: Option<Container>, reply: Reply)
      modifies env
      ensures env.asked == old(env.asked) + 1 && reply == old(env.Next(0))
      ensures found == if reply.Done? && c in rows then Some(rows[c]) else None
    {
      var r := env.Ask();
      reply := r.reply;
      found := if reply.Done? && c in rows then Some(rows[c]) else None;
    }

    method Update(c: Container) returns (ok: bool)
      modifies this, env
      ensures env.asked == old(env.asked) + 1
      ensures ok <==> old(env.Next(0)).Done? && c.id in old(rows)
      ensures rows == if old(env.Next(0)).TookEffect() && c.id in old(rows)
                      then old(rows)[c.id := RowColumns(old(rows)[c.id], c)] else old(rows)
    {
      var r := env.Ask();
      ok := r.reply.Done? && c.id in rows;
      if r.reply.TookEffect() && c.id in rows { rows := rows[c.id := RowColumns(rows[c.id], c)]; }
    }

    method Delete(c: ContainerId) returns (ok: bool)
      modifies this, env
      ensures env.asked == old(env.asked) + 1
      ensures ok <==> old(env.Next(0)).Done? && c in old(rows)
      ensures rows == if old(env.Next(0)).TookEffect() then old(rows) - {c} else old(rows)
    {
      var r := env.Ask();
      ok := r.reply.Done? && c in rows;
      if r.reply.TookEffect() { rows := rows - {c}; }
    }
  }
}
