/** The entities of the container manager: containers, jobs, and what an outside
    call (a SQL statement, a Docker request) may answer. */
module Domain {

  datatype Option<+T> = None | Some(value: T)

  type UserId = nat
  type ContainerId = nat
  type JobId = nat
  /** An ordered clock, in seconds. */
  type Time = nat

  /** A Docker container ID. Docker never reuses an ID, and the manager names every
      Docker container after the row it serves ("aidms-" + container ID), so an ID
      determines its name for ever; `serial` tells apart the IDs one name has had. */
  datatype DockerId = DockerId(name: ContainerId, serial: nat)

  datatype ContainerStatus = Created | Running | Exited | Dead

  datatype Container = Container(
    id: ContainerId,
    owner: UserId,
    name: string,
    environment: string,
    command: seq<string>,
    status: ContainerStatus,
    dockerId: Option<DockerId>,
    createdAt: Time,
    updatedAt: Time)

  datatype JobKind = CreateContainer | StartContainer | StopContainer | DeleteContainer

  datatype JobStatus = JobPending | JobRunning | JobSuccess | JobFailed

  /** Why a job failed: the error message of the job row, by its origin. */
  datatype Cause = Interrupted | RowNotFound | DatabaseError | StorageError | RuntimeError | NoDockerId | DockerNotFound

  datatype Job = Job(
    id: JobId,
    user: UserId,
    target: ContainerId,
    kind: JobKind,
    status: JobStatus,
    error: Option<Cause>,
    createdAt: Time,
    completedAt: Option<Time>)
  {
    predicate Active() { status == JobPending || status == JobRunning }

    predicate Ended() { status == JobSuccess || status == JobFailed }

    /** The two values are versions of one job: everything but the progress columns agrees. */
    predicate SameJob(other: Job) {
      id == other.id && user == other.user && target == other.target && kind == other.kind && createdAt == other.createdAt
    }
  }

  /** What the caller of a statement or a Docker request learns, and what became of it:
      carried out and confirmed; failed without effect; or failed after taking effect
      (the confirmation was lost). */
  datatype Reply = Done | Refused | Lost {
    predicate TookEffect() { this != Refused }
  }

  const JOB_RETENTION: Time := 7 * 24 * 3600
  const CHANNEL_CAPACITY: nat := 100
  const UPDATE_RETRIES: nat := 3
}
