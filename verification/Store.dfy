/** The two tables and the Docker daemon as plain values, with one function for every
    statement the worker issues. */
module Store {
  import opened Domain

  /** `docker` maps each existing Docker container to whether it is running; `made` holds
      every Docker ID ever handed out. */
  datatype World = World(
    rows: map<ContainerId, Container>,
    jobs: map<JobId, Job>,
    docker: map<DockerId, bool>,
    made: set<DockerId>)

  function RowOf(w: World, c: ContainerId): Option<Container> {
    if c in w.rows then Some(w.rows[c]) else None
  }

  predicate IsRunning(w: World, d: DockerId) { d in w.docker && w.docker[d] }

  predicate NameTaken(w: World, c: ContainerId) { exists d :: d in w.docker && d.name == c }

  predicate HasActiveJob(w: World, c: ContainerId) {
    exists j :: j in w.jobs && w.jobs[j].target == c && w.jobs[j].Active()
  }

  /** UPDATE jobs SET status, error_message, completed_at WHERE id. */
  function UpdateJob(w: World, job: Job, reply: Reply): World {
    if job.id in w.jobs && reply.TookEffect() then w.(jobs := w.jobs[job.id := JobColumns(w.jobs[job.id], job)]) else w
  }

  function JobColumns(row: Job, job: Job): Job {
    row.(status := job.status, error := job.error, completedAt := job.completedAt)
  }

  /** UPDATE containers: every column but the owner and the creation time. */
  function UpdateRow(w: World, c: Container, reply: Reply): World {
    if c.id in w.rows && reply.TookEffect() then w.(rows := w.rows[c.id := RowColumns(w.rows[c.id], c)]) else w
  }

  function RowColumns(row: Container, c: Container): Container { c.(owner := row.owner, createdAt := row.createdAt) }

  function DeleteRow(w: World, c: ContainerId, reply: Reply): World {
    if reply.TookEffect() then w.(rows := w.rows - {c}) else w
  }

  /** An UPDATE or DELETE is confirmed only when it was answered and met its row. */
  predicate Confirmed(w: World, c: ContainerId, reply: Reply) { reply.Done? && c in w.rows }

  /** A Docker container stops, on request or by itself. */
  function Halt(w: World, d: DockerId): World {
    if d in w.docker then w.(docker := w.docker[d := false]) else w
  }

  function Launch(w: World, d: DockerId): World {
    if d in w.docker then w.(docker := w.docker[d := true]) else w
  }

  function Provide(w: World, d: DockerId): World {
    w.(docker := w.docker[d := false], made := w.made + {d})
  }

  function Discard(w: World, d: DockerId): World {
    w.(docker := w.docker - {d})
  }
}
