# A model of the container manager, with proofs

The repository serves users who own *containers* and *files*. A request to create, start, stop or delete a
container does not touch Docker: it is admitted under a mutex per container and a row lock, writes a PENDING
*job* row and puts the job into a channel of 100 places. A pool of workers takes jobs from the channel, marks
them RUNNING, reads the container row, drives Docker call by call, writes the row back with up to three tries,
and records the job as SUCCESS or FAILED. On start-up RUNNING rows become FAILED and PENDING rows are queued
again; a cleaner deletes rows that ended more than seven days ago. Files are uploaded by writing the physical
file and then its row, and deleted in the opposite order.

`dafny verify dfyconfig.toml` checks everything.

## How it is modelled

* **The protocol** (`Domain`, `Store`, `WorkerSteps`, `Protocol`) is one transition system over the two tables,
  Docker, the channel, the program counter of every worker, the stage of every request, the mutexes, the row
  locks and the clock. Its steps are cut wherever another goroutine can run. The environment is an adversary:
  every statement and every Docker call may be refused, or take effect and lose its confirmation (`Reply`);
  Docker containers stop by themselves; a send may time out; the process may crash between any two steps and be
  started again. Which of the two locks is in force is a parameter (`Locking`), so that each theorem says which
  of them it needs.
* **The invariants** (`Invariant`, `Lifecycle`, `Containers`, `Accounting`) are kept by every step, and the
  theorem files (`Jobs`, `Conservation`, `ContainerTheorems`, `RowHistory`, `AllOrNothing`, `Frames`, `Admission`,
  `Creation`, `Orphans`, `Projection`, `Serial` with `Slices`, `Schedules`, `Simulation`, `Tracking` and
  `JobAnswers`, `Drain`, `Rounds`, `Retry`, `Outcomes`) draw conclusions for all reachable states and all runs.
* **The code in its own form** (`Repositories`, `Channel`, `WorkerPool`, `Service`, `Startup`, `Transactions`,
  `FileService`) are classes whose methods update tables, channel, mutexes and Docker step by step, with the
  loops of the source. What their calls are answered is up to an `Environments.Environment`: a sequence of
  reactions that is fixed beforehand and that the code cannot know. The contract of each method gives its
  result and the new state by what it finds and by the reactions its calls get, in their order, so that no call
  can be left out or answered by the code itself. Each service or worker method is also proved to be a path of
  the corresponding transition system, so the theorems apply to it. A method runs without being interrupted;
  interleaving is the subject of the transition systems.
* **Files** (`Files`) is a second transition system over the files table and the disk; **Names** and **Paging**
  model the storage names and the paged lists.
* **Histories.** Some claims need a condition on the past. A container is *orderly* if no guard ever admitted a
  request for it between Create's two writes (*split*) or after a failed look-up of active jobs (*unchecked*). It
  is *stale* if a guard admitted a request on a status that was out of date, has *drifted* if a START that had
  launched it did not get to write its row, is *blurred* if one of its row writes took effect although it
  reported an error, and an *orphan* if a CREATE left a Docker container behind that its row does not carry.
  `Frames` says of each step exactly whether it makes a container or a job such an exception. `Necessity` shows
  for all reachable states that the exceptions can lead to what the theorems exclude, and `Witnesses` holds
  concrete runs from an empty system.

## What the proofs found

* A guard takes a *failed* look-up of active jobs for "none". With the row lock the transaction fails anyway;
  with the mutex alone two jobs of one container become active (`Necessity.UncheckedAllowsTwo`). Under any locks
  the same happens when a guard passes between Create's two writes (`Necessity.SplitAllowsTwo`). Otherwise it
  never does (`Jobs.MutualExclusion`).
* With the mutex alone a guard may act on a status that a job has changed since it was read, and a DELETE then
  removes a running container (`Necessity.StaleDeleteRemoves`). The row lock prevents it
  (`ContainerTheorems.RowLockKeepsUpToDate`).
* Under any locks, a START whose answer from Docker is lost, or that is cut off before its row write, leaves a
  row saying Exited over a running container, and a DELETE removes it (`Necessity.TrailingRowRemoved`). On an
  orderly container these two ways are the only ones (`ContainerTheorems.NoForcedRemoval`).
* A DELETE that failed half-way can be repeated to completion, but not while Docker cannot be reached: only an
  answered removal, be it "no such container", leads on to the row (`Retry.DeleteCanBeRepeated`).
* "A Docker ID once set never changes" is false on a split container whose CREATE could not be recorded
  (`Necessity.CreateReplacesId`); on an orderly container it holds over all runs (`RowHistory.RunRowForward`).
* A CREATE leaves a Docker container behind that no row carries exactly if the answer to its creation is lost,
  its clean-up after a failed start has no effect, or its row write is given up or cut off
  (`Orphans.OrphansAreAccounted`, `Frames.OrphansArise`).
* An upload whose insert takes effect but reports an error ends as a row without a file (`Files.RowWithoutFile`).
* The page offset is computed in 64 bits and wraps around: a huge page number can be served as page 1, or fail
  (`Paging.PageServed`, `Paging.WrappedPages`).
* The status diagram in spec/schemas/container.md has a state Dead, which the code never writes
  (`ContainerTheorems.RestingRow`); and spec/schemas/job.md promises a completion time on every FAILED row, which
  rows failed by the start-up recovery do not get (`Jobs.CompletionTimes`). The model follows the code.

## Model

| member | source | states |
|---|---|---|
| `WorkerSteps.WorkOnJobs` | internal/service/worker.go:78-111 | A worker writes its job row only at the RUNNING write and at the final write; the final write sets status, error and completion time as the result says; every other job row stays. |
| `WorkerSteps.WorkOnProc` | internal/service/worker.go:78-111 | A step leaves the worker idle exactly when it was the final write; the job it holds keeps its identity, and no worker ever reports a job as interrupted. |
| `WorkerSteps.WorkOnRows` | internal/service/worker.go:146-217 | A worker step changes no container row but its target's, only in a row write or a row delete, and never the owner or the creation time. |
| `WorkerSteps.ReplayAppend` | internal/service/worker.go:146-217 | Executing a log in two parts is executing it whole, and legal if and only if both parts are. |
| `Protocol.ServeReach` | internal/service/container_svc.go:43-238 | What serving a request can touch: its own new job row, its own new container row, its place, the channel, and nothing of the workers or Docker. |
| `Invariant.StepInv` | internal/service/container_svc.go:43-238 | Every step of requests, workers, cleaner, crash and start-up keeps the invariant on places of jobs, locks, exclusion and ownership. |
| `Invariant.ReachableInv` | internal/service/container_svc.go:102-238 | The invariant holds in every reachable state, whichever of the two locks is in force. |
| `Invariant.PublishMet` | internal/service/container_svc.go:102-122 | When a guarded job row becomes visible, no other request that has passed its guard is left to meet it: the lock, or having founded the container, keeps it out. |
| `Admission.OwnersRequestAdmitted` | internal/service/container_svc.go:102-196 | An uncontended Stop of the owner on a row that says Running, and a Start or Delete on a row that says anything else, is inserted and queued when there is no active job, room in the channel, and every call is answered. |
| `Admission.StatusNeeded` | internal/service/container_svc.go:108-123 | No Stop passes its guard unless the row it read says Running, and no Start or Delete if it does; with the row lock the row still says so at that moment. |
| `Admission.GuardReadsRow` | internal/service/container_svc.go:109-115 | The guard goes on only for the owner, with the row as it is, under the row lock if there is one. |
| `Creation.InsertedInOrder` | internal/service/container_svc.go:102-132 | With the mutex a Start, Stop or Delete job about to be inserted was created no earlier than any such job its container has; nothing is dated in the future. |
| `Creation.DatedWhenLetIn` | internal/service/container_svc.go:103-107 | A job is dated when its request has got the mutex, which nobody else holds then; Create's when its row has been written. |
| `Admission.NamesAreUnique` | internal/service/container_svc.go:61-66 | In every reachable state two containers of one user have different names. |
| `Admission.NamesAreTheUsersOwn` | internal/service/container_svc.go:61-66 | The name of another user's container is free for Create; the name of a container of the same user is refused, whatever is answered. |
| `Admission.RowsKeepTheirData` | internal/repository/postgres/container_repo.go:119-138 | Over any run a container row that is still there has kept everything but status, Docker ID and time of update. |
| `Jobs.MutualExclusion` | internal/service/container_svc.go:102-227 | With the mutex alone, the row lock alone or both: never two CREATE jobs of a container; two active jobs only if a guard fell between Create's two writes (then one of them is the CREATE) or passed on a failed look-up, which the row lock excludes. That either exception leads to two active jobs is stated by the two rows of Necessity below. |
| `Necessity.SplitAllowsTwo` | internal/service/container_svc.go:61-69 | From every reachable state in which a guard can pass while Create stands between its two writes, under any locks, a run leads to two active jobs of the container. |
| `Necessity.UncheckedAllowsTwo` | internal/service/container_svc.go:116-118 | With the mutex alone, from every reachable state in which a guard is at its look-up while the container has an active job, a failed look-up leads to two active jobs. |
| `Jobs.OneWorkerPerContainer` | internal/service/worker.go:63-111 | No two workers process one job, and no two workers are inside `process` for one orderly container. |
| `Jobs.StepForward` | internal/repository/postgres/job_repo.go:91-126 | Each step moves job rows only forward; a row disappears only after it has ended; a row appears only from a request. |
| `Jobs.RunForward` | internal/repository/postgres/job_repo.go:91-126 | Over any run with crashes and restarts a job status never goes back, and an ended row changes only by deletion. |
| `Jobs.CompletionTimes` | internal/service/worker.go:99-110 | A completion time marks exactly the rows ended by a worker; rows failed by recovery have none and carry the interruption message. |
| `Jobs.NeverDeliveredAgain` | app/handler.go:111-124 | Once a job row has left PENDING, no worker receives the job again, in this process or after any number of restarts. |
| `Jobs.MarkedOnce` | internal/service/worker.go:81-85 | If a worker's RUNNING write takes effect, that worker is the last one ever to start the job. |
| `Jobs.OncePerProcess` | app/handler.go:115-124 | One process hands a job to at most one worker, whatever writes fail. |
| `Conservation.StepConserved` | internal/service/container_svc.go:229-238 | Every step keeps each PENDING row in at least one place and the accounting of RUNNING rows. |
| `Conservation.PendingInOnePlace` | internal/service/container_svc.go:229-238 | While the process is up each PENDING row is in exactly one place: channel, worker before its RUNNING write, request about to send, stranded, or left by a failed RUNNING write; the channel never exceeds 100. |
| `Conservation.StrandedBlocks` | internal/service/container_svc.go:229-238 | Over every run without a crash, a stranded row stays PENDING and as it is, and no Start, Stop or Delete of its container whose look-up is answered is admitted. |
| `Conservation.RunningWithinPool` | internal/service/worker.go:51-111 | When final writes and the recovery succeed, RUNNING rows never outnumber the workers. |
| `Lifecycle.StepLife` | internal/service/worker.go:146-217 | Every step keeps: a row says Created exactly while it has no Docker ID, never Dead; Docker IDs belong to their container; Docker holds one container per name. |
| `Containers.AloneStep` | internal/service/worker.go:146-235 | For one orderly container and its one worker: each worker step keeps what row, Docker container and worker say about each other. |
| `Accounting.StepSound` | internal/service/worker.go:146-235 | Every step of the whole system keeps these facts for all orderly containers at once. |
| `ContainerTheorems.ReachableGood` | internal/service/worker.go:146-235 | All invariants hold in every reachable state. |
| `ContainerTheorems.DockerAccounting` | internal/repository/docker/container_runtime.go:27-65 | Every live Docker container of an orderly container whose CREATE was recorded as successful is carried by its row; no two rows share a Docker ID; no two Docker containers share a name. |
| `ContainerTheorems.BornIsRecorded` | internal/service/worker.go:99-110 | Whether a container counts as born is what its CREATE job row says: SUCCESS if and only if born. |
| `ContainerTheorems.NoForcedRemoval` | internal/service/worker.go:205-217 | Under either lock a DELETE on an orderly container never removes a running Docker container, unless a guard passed on a status that was out of date, or the row trails Docker after a START that did not get to write it. |
| `ContainerTheorems.RowLockKeepsUpToDate` | internal/service/container_svc.go:201-227 | With the row lock every guard decides on the row as it is, so no status is out of date and no look-up goes unchecked. |
| `Necessity.StaleDeleteRemoves` | internal/service/container_svc.go:166-187 | With the mutex alone, from every reachable state in which a DELETE has yet to insert its job while the row carries a running container and no job is active, a run leads to the removal of the running container; if the row says Running at the look-up, the status counts as out of date. |
| `Necessity.RunningRowGoes` | internal/service/worker.go:205-217 | From there the row goes too, whatever it says. |
| `Necessity.TrailingRowRemoved` | internal/service/worker.go:177-186 | Under any locks, from every reachable state with a row that does not say Running but carries a running container, and without a PENDING job of it, a restart and a DELETE lead to the removal of the running container. |
| `Necessity.CrashedStartRemoves` | internal/service/worker.go:177-186 | In particular from every state in which a START on an orderly container has launched it, its RUNNING write has taken effect and the row does not say Running. |
| `Orphans.OrphansAreAccounted` | internal/service/worker.go:146-167 | Over all runs, while no CREATE job is at work on it, Docker has a container of an orderly container's name that its row does not carry if and only if a CREATE left one behind. |
| `Orphans.CreateLeavesNothing` | internal/service/worker.go:157-166 | In particular when a CREATE is about to be recorded; a successful one leaves none. |
| `Frames.OrphansArise` | internal/repository/docker/container_runtime.go:27-52 | A CREATE leaves one behind exactly if the answer to its creation is lost, the removal after a failed first start has no effect, its row write is given up without effect, or a crash comes in between. |
| `ContainerTheorems.RestingRow` | internal/service/worker.go:219-235 | A row says Created exactly while it has no Docker ID and never says Dead; an orderly row that says Exited and that no START is about to overwrite has a Docker container that is not running. |
| `RowHistory.StepRow` | internal/repository/postgres/container_repo.go:119-150 | A container row changes only by a row write or delete of a worker on it, and is founded only where there is none. |
| `RowHistory.RowRemoval` | internal/service/worker.go:205-217 | A row disappears only through a DELETE job; an orderly one only when it does not say Running, unless a guard passed on a status that was out of date. |
| `RowHistory.RunRowForward` | internal/repository/postgres/container_repo.go:119-138 | Over any run a row keeps owner and creation time, never returns to Created, never loses its Docker ID, and keeps this very ID if its container stayed orderly. |
| `Necessity.CreateFindsNameTaken` | internal/service/worker.go:157-166 | On an orderly container a CREATE job never finds its row with a Docker ID and the name free in Docker, so it cannot replace the ID. |
| `Necessity.CreateReplacesId` | internal/service/worker.go:157-166 | From every reachable state in which a free worker can take a CREATE job that does, a run gives the row another Docker ID. |
| `RowHistory.RowPersists` | internal/service/worker.go:63-76 | A row stays exactly as it is until a worker is busy with its container again, through requests, clean-ups, crashes and restarts. |
| `AllOrNothing.JobIsAtomic` | internal/service/worker.go:78-217 | At every moment of a job on an orderly container without blurred writes the row is at its full before-value or meets the postcondition; a FAILED job left it untouched; a SUCCESS job meets it, and Docker holds what it promises: the carried container after CREATE and START, not running after STOP and whenever the row says Exited, and after DELETE neither the carried container nor, once born, any of that name. |
| `Necessity.BlurredWriteFails` | internal/service/worker.go:116-144 | Wherever a worker is about to write or delete its row, an unconfirmed write can make the job FAILED with the row written or gone. |
| `AllOrNothing.RecoveryFindsWholeRow` | internal/repository/postgres/job_repo.go:91-98 | A job that the next start-up fails has its container row at its full before-value or at a full after-value. |
| `AllOrNothing.SuccessLasts` | internal/service/worker.go:99-110 | The postcondition of a successful job lasts until a worker takes the next job of the container. |
| `AllOrNothing.BeforeIsRowAtTake` | internal/service/worker.go:69-73 | The before-value of these theorems is the row at the moment the job was taken. |
| `Frames.OwnershipFrame` | internal/service/container_svc.go:108-187 | A step changes a container row only on behalf of the row's owner. |
| `Frames.JobsAreTheOwners` | internal/service/container_svc.go:113-115 | Each job, and each request past its guard, belongs to the owner of its container. |
| `Frames.CleanerInvisible` | internal/service/job_cleaner.go:37-57 | After any cleaner ticks every look-up of active jobs answers as before; only rows completed longer ago than seven days are gone; rows failed by recovery stay. |
| `Frames.ExceptionsArise` | internal/service/container_svc.go:108-123 | Exactly when a step makes a container split, unchecked or stale. |
| `Frames.WorkExceptionsArise` | internal/service/worker.go:116-187 | Exactly when a container begins and stops to drift, becomes blurred, and becomes born. |
| `Frames.JobExceptionsArise` | internal/service/container_svc.go:229-238 | Exactly when a job becomes stranded, unmarked or stuck, and stops being so. |
| `Projection.StepMirrored` | internal/service/container_svc.go:43-238 | For any set of containers, each step of the system is for them one of their own steps or nothing. |
| `Projection.RunMirrored` | internal/service/worker.go:63-217 | Every run, with crashes and restarts, looks to any set of containers like a run in which the others do not exist. |
| `Projection.NoInterference` | internal/service/worker.go:63-217 | What any set of containers sees of a reachable state is itself a reachable state: containers do not interfere through the channel, the pool, the locks, recovery or the cleaner. |
| `Slices.WorkLocal` | internal/service/worker.go:146-217 | A worker step depends on and touches only the slice of its job and container. |
| `Tracking.TrackStep` | internal/service/worker.go:63-217 | Each step of the interleaved system is matched by the serial schedule built so far. |
| `Tracking.ScheduleOrder` | internal/service/worker.go:63-111 | The schedule runs the jobs in the order of their final writes. |
| `Serial.AllHeard` | internal/service/worker.go:63-217 | The schedule gives each job exactly the answers it got in the run, in the same order. |
| `Serial.Serialisable` | internal/service/worker.go:63-217 | A crash-free orderly run from idle to idle leaves the same container rows, job rows and Docker containers as running its jobs whole, one at a time, in finishing order, with the same answers. |
| `Serial.SerialisableApart` | internal/service/worker.go:63-217 | The same for any set of containers that stay orderly, whatever becomes of the others. |
| `Drain.ReachableReleased` | internal/service/container_svc.go:102-105 | In every reachable state a held lock belongs to a request that still stands: locks are always given back. |
| `Drain.WorkLowers` | internal/service/worker.go:78-144 | Each call a worker waits for lowers the number of calls left, the three-try loops included. |
| `Drain.StepLowers` | internal/service/worker.go:63-144 | Every worker step lowers the measure; nothing else in a drain touches it. |
| `Drain.DrainTerminates` | internal/service/worker.go:63-144 | Without new requests the pool takes at most twelve steps for each queued job and eleven for each worker. |
| `Drain.Progress` | internal/service/worker.go:63-144 | The pool never deadlocks: some worker can move, or the request whose row lock all busy workers wait for can give up. |
| `Drain.DrainEndsEveryJob` | internal/service/worker.go:63-111 | With job writes succeeding, when the pool is at rest every job that was in the channel or a worker has ended SUCCESS or FAILED. |
| `Drain.PoolComesToRest` | internal/service/worker.go:63-144 | From every reachable state in which no row is locked the pool can be driven to rest within its measure, without moving a request. |
| `Rounds.OldestAreQueued` | app/handler.go:115-124 | Start-up queues the oldest min(100, n) of n PENDING jobs in creation order, each as its row's image, and strands exactly the others. |
| `Rounds.RoundPending` | app/handler.go:111-124 | A life of the process takes exactly its queue away from the PENDING jobs there were; what it adds is not older than its start. |
| `Rounds.RoundPossible` | app/handler.go:111-124 | From every recovered state there is a quiet round that works its whole queue off. |
| `Rounds.RoundsNeeded` | app/handler.go:115-124 | n PENDING jobs without new requests are gone exactly from round ceil(n/100) on. |
| `Rounds.NoStarvation` | internal/repository/postgres/job_repo.go:47-68 | A PENDING job with r at least as old others is queued by one of the next floor(r/100)+1 start-ups, whatever younger jobs arrive. |
| `Retry.DeleteSucceeds` | internal/service/worker.go:205-217 | With its row there and its database calls answered, a DELETE ends SUCCESS with row and Docker container gone if and only if Docker answers the removal, with success or with not-found; otherwise FAILED with the row as it was, even if there is nothing to remove. |
| `Retry.DeleteCanBeRepeated` | internal/service/worker.go:205-217 | A DELETE whose row deletes all fail leaves the row as it was and the Docker container gone; the next DELETE ends SUCCESS with the row gone if and only if Docker answers its removal, and FAILED with the row kept otherwise. |
| `Paths.LaunchPath` | internal/service/worker.go:146-158 | A CREATE job with its calls answered gets Docker to run a new container under its row's name. |
| `Paths.SettlePath` | internal/service/worker.go:162-166 | Then it records Exited if the container stops while it waits, Running if it is still inspected running, and closes the job. |
| `Paths.StartPath` | internal/service/worker.go:169-182 | A START whose request Docker confirms has the container running and waits for it; one whose answer is lost has it running and ends as a runtime error; a refused one ends so too and has changed only the job row. |
| `Paths.StopPath` | internal/service/worker.go:189-201 | A STOP whose request Docker confirms has the container stopped and is about to record Exited. |
| `Paths.WritePath` | internal/service/worker.go:116-129 | Up to two refused tries do not matter: the row is written as the worker has it, and the job is closed as SUCCESS. |
| `Paths.InspectedExitPath` | internal/service/worker.go:223-235 | A container that stops after the wait has timed out is found out by the inspection: the row says Exited and the job is closed as SUCCESS. |
| `Outcomes.NothingToDo` | internal/service/worker.go:146-203 | A row that cannot be read, is missing, or has no Docker ID to start or stop fails the job with its cause; rows and Docker are as they were. |
| `Outcomes.CreateWithoutFolder` | internal/service/worker.go:151-155 | A CREATE without its folder fails before Docker is asked. |
| `Outcomes.CreateUnconfirmed` | internal/repository/docker/container_runtime.go:33-45 | An unconfirmed creation fails the job; Docker is as it was unless only the answer was lost. |
| `Outcomes.LaunchUndone` | internal/repository/docker/container_runtime.go:46-52 | A first start that is not confirmed fails the CREATE, and the new container is removed again: Docker is as it was, unless the removal has no effect; the row is untouched. |
| `Outcomes.StartUnconfirmed` | internal/service/worker.go:177-182 | A START that is not confirmed fails; not-found is reported as such; the container runs only if the start had taken effect. |
| `Outcomes.StopUnconfirmed` | internal/service/worker.go:194-199 | A STOP that is not confirmed fails; the container has stopped only if the stop had taken effect. |
| `Outcomes.DeleteWithoutId` | internal/service/worker.go:205-217 | A DELETE of a row without Docker ID asks Docker for nothing, deletes the row and succeeds. |
| `Outcomes.ObservationRecorded` | internal/service/worker.go:223-235 | The row to be written says Exited after a seen exit or a stop, says Running exactly if the container ran at an answered inspection, and Running if the inspection tells nothing. |
| `Outcomes.RowWritten` | internal/service/worker.go:116-129 | Three tries: the row is the worker's copy but for owner and creation time exactly if one took effect; the job goes on exactly at the first confirmed one, and else fails. |
| `Outcomes.RowDropped` | internal/service/worker.go:131-144 | Three tries: a delete that took effect without confirmation makes the later ones report a missing row, so the job fails with its row gone. |
| `Outcomes.RowMissing` | internal/repository/postgres/container_repo.go:119-150 | A row that is gone when it is to be written or deleted fails the job and nothing has changed. |
| `Solo.AdmitAlone` | internal/service/container_svc.go:102-132 | An uncontended request on a container without active jobs in a permitting status is admitted: one new job row, one new channel entry, locks released, nothing else. |
| `Solo.RowMade` | internal/service/container_svc.go:61-67 | Create can stand between its two writes with the row visible and the job not. |
| `Solo.JobMade` | internal/service/container_svc.go:68-75 | Create's second write and hand-over complete it. |
| `Solo.WorkerRuns` | internal/service/worker.go:63-111 | A worker that nobody disturbs goes exactly the way of the sequential code. |
| `Witnesses.SplitContainer` | internal/service/container_svc.go:61-69 | With both locks, a Start between Create's two writes gives two active jobs of one container. |
| `Witnesses.UncheckedGuard` | internal/service/container_svc.go:116-118 | With the mutex alone, failed look-ups give two active START jobs of one container. |
| `Witnesses.StaleStatus` | internal/service/container_svc.go:180-185 | With the mutex alone, a status read before a job ends lets a DELETE remove a running container. |
| `Witnesses.CrashedStart` | internal/service/worker.go:177-186 | With both locks, a crash between Docker's start and the row write lets a later DELETE remove a running container. |
| `Witnesses.IdCanChange` | internal/service/worker.go:157-166 | On a split container whose CREATE could not be recorded, a restart gives the row a second Docker ID. |
| `Repositories.JobRepository.Save` | internal/repository/postgres/job_repo.go:20-28 | Inserts the row unless the ID is taken; the answer may be lost. |
| `Repositories.JobRepository.Update` | internal/repository/postgres/job_repo.go:100-113 | Updates the three progress columns of an existing row; a missing row is an error. |
| `Repositories.JobRepository.FindPendingOrRunningByTarget` | internal/repository/postgres/job_repo.go:70-89 | When answered, finds an active job of the container if and only if there is one. |
| `Repositories.JobRepository.FindPendingJobs` | internal/repository/postgres/job_repo.go:47-68 | The row loop returns the whole cursor, or what it read before the connection broke, or nothing when a row cannot be scanned. |
| `Repositories.JobRepository.MarkRunningAsFailed` | internal/repository/postgres/job_repo.go:91-98 | Fails the RUNNING rows, with no completion time. |
| `Repositories.JobRepository.DeleteExpired` | internal/repository/postgres/job_repo.go:115-126 | Deletes exactly the ended rows completed before the cutoff and reports how many. |
| `Repositories.ContainerRepository.Save` | internal/repository/postgres/container_repo.go:24-44 | Inserts only under a free pair of owner and name, and reports the conflict. |
| `Repositories.ContainerRepository.FindByID` | internal/repository/postgres/container_repo.go:77-117 | Returns the row if there is one and the query is answered. |
| `Repositories.ContainerRepository.Update` | internal/repository/postgres/container_repo.go:119-138 | Writes the whole row but owner and creation time; a missing row is an error. |
| `Repositories.ContainerRepository.Delete` | internal/repository/postgres/container_repo.go:140-150 | Deletes the row; a missing row is an error. |
| `WorkerPool.ContainerRuntime.ContainerCreate` | internal/repository/docker/container_runtime.go:33-45 | Creates under a free name with an ID never handed out before. |
| `WorkerPool.ContainerRuntime.ContainerStart` | internal/repository/docker/container_runtime.go:54-56 | Starts an existing container when it takes effect, confirmed or not; reports not-found only when answered. |
| `WorkerPool.ContainerRuntime.ContainerStop` | internal/repository/docker/container_runtime.go:58-61 | A successful stop leaves the container not running. |
| `WorkerPool.ContainerRuntime.ContainerRemove` | internal/repository/docker/container_runtime.go:63-65 | Forced removal of whatever state the container is in; reports not-found only when answered. |
| `WorkerPool.ContainerRuntime.WaitExit` | internal/repository/docker/container_runtime.go:78-90 | True only if the container is not running. |
| `WorkerPool.ContainerRuntime.InspectState` | internal/repository/docker/container_runtime.go:67-76 | The state if the container exists and the call is answered. |
| `WorkerPool.PlayedLeads` | internal/service/worker.go:78-111 | The calls of a job, answered one after the other by an environment, are a legal path of the step machine. |
| `WorkerPool.Worker.RetryUpdate` | internal/service/worker.go:116-129 | The loop of up to three writes is the path of the step machine through its row writes. |
| `WorkerPool.Worker.RetryDelete` | internal/service/worker.go:131-144 | The loop of up to three deletes is the path of the step machine through its row deletes. |
| `WorkerPool.Worker.SyncContainerState` | internal/service/worker.go:223-235 | Waits, then inspects: Exited if the wait saw it, or if an answered inspection finds the container stopped, and Running otherwise; the path of the step machine. |
| `WorkerPool.Worker.CreateAndStart` | internal/repository/docker/container_runtime.go:27-52 | Create, start, and forced removal when the start fails, after which Docker is as before; what is left for each combination of replies; the path of the step machine. |
| `WorkerPool.Worker.ProcessCreate` | internal/service/worker.go:146-167 | Reaches the step machine's verdict with the tables and Docker as it has them. |
| `WorkerPool.Worker.ProcessStart` | internal/service/worker.go:169-187 | The same for START, with its two refusals before Docker is asked. |
| `WorkerPool.Worker.ProcessStop` | internal/service/worker.go:189-203 | The same for STOP. |
| `WorkerPool.Worker.ProcessDelete` | internal/service/worker.go:205-217 | The same for DELETE, which goes on past an answered removal or not-found, and returns any other error. |
| `WorkerPool.Worker.Process` | internal/service/worker.go:78-111 | One job worked off: tables, Docker and worker end where the step machine ends when its calls get the environment's reactions in order, and the job object is closed with its verdict. |
| `WorkerPool.Worker.Run` | internal/service/worker.go:63-76 | A lone worker takes the jobs from the channel in order, as many as it is given time for, and leaves the tables and Docker as playing them one by one. |
| `Channel.JobChannel.TrySend` | app/handler.go:119-123 | A non-waiting send succeeds exactly while there is room. |
| `Channel.JobChannel.SendUntil` | internal/service/container_svc.go:229-238 | A send with a deadline succeeds only if there is room and the deadline has not passed. |
| `Channel.JobChannel.Receive` | internal/service/worker.go:69-73 | Takes the oldest entry. |
| `Service.ContainerService.Guard` | internal/service/container_svc.go:108-123 | Refuses exactly for the reason that the reply to the read, the row, its owner, its status and the answered look-up of active jobs give; a failed look-up counts as none, but dooms a transaction. |
| `Service.ContainerService.RunGuarded` | internal/service/container_svc.go:201-218 | The job is inserted exactly if the guard does not refuse and the insert, in a transaction the commit, takes effect; the result says which. |
| `Service.ContainerService.SendJob` | internal/service/container_svc.go:229-238 | Hands the job over, or reports 503 and leaves the PENDING row behind. |
| `Service.ContainerService.Start` | internal/service/container_svc.go:102-132 | The call is a run of the protocol; its result, the job row and the channel are exactly what row, active jobs, room and replies determine; success means the row does not say Running. |
| `Service.ContainerService.Stop` | internal/service/container_svc.go:134-164 | The same for Stop: success means the row says Running, a conflict that it does not or that a job is active. |
| `Service.ContainerService.Delete` | internal/service/container_svc.go:166-196 | The same for Delete: success means the row does not say Running. |
| `Service.ContainerService.Create` | internal/service/container_svc.go:43-76 | The two writes and the hand-over are a run of the protocol; result, row, job and channel are exactly what name, environment, room and replies determine; the row can be left without a job. |
| `Startup.RecoverAndRequeue` | app/handler.go:108-124 | If the recovery takes effect no row says RUNNING, those that did are FAILED as interrupted with their completion time, and the others are as they were; the query and the fill loop follow: the start-up of the protocol. |
| `Startup.FillChannel` | app/handler.go:117-124 | The loop queues in order and stops at the first job that does not fit. |
| `Startup.CleanOnTicks` | internal/service/job_cleaner.go:37-57 | A row goes if and only if it had ended more than seven days before a tick whose delete takes effect; none is changed. |
| `Transactions.TxManager.WithTx` | internal/repository/postgres/tx.go:25-42 | The table is replaced exactly if the transaction begins, the function succeeds and the commit takes effect; an error of the function is the result. |
| `Transactions.TxManager.Direct` | internal/service/file_svc.go:135-152 | Without a transaction manager the same function runs on the table itself. |
| `Files.StepInv` | internal/service/file_svc.go:43-131 | Every step of uploads and deletions, crashes included, keeps the invariant on rows, disk and operations under way. |
| `Files.RowsHaveFiles` | internal/service/file_svc.go:76-87 | At every moment a file row has its physical file of the recorded size at its own path if and only if its upload's clean-up has not removed it under the row. |
| `Files.BereftArises` | internal/service/file_svc.go:83-86 | That happens exactly when the clean-up of a failed upload takes effect while its row is there. |
| `Files.RowWithoutFile` | internal/service/file_svc.go:83-86 | It can happen to any file: an insert that takes effect but reports an error ends as a row whose file was removed. |
| `Files.FilesAreAccounted` | internal/service/file_svc.go:80-86 | A physical file without a row belongs to an operation under way or was left behind. |
| `Files.LeftoversArise` | internal/service/file_svc.go:76-130 | Exactly the interrupted uploads and deletions, half-failed writes, lost row deletions and failed removals leave files behind. |
| `Files.AtRestTheyMatch` | internal/service/file_svc.go:43-131 | With nothing under way, nothing left behind and no file removed under its row, rows and physical files match one to one with the recorded sizes. |
| `Files.RemovedAtMostOnce` | internal/repository/postgres/file_repo.go:94-104 | Among any deletions of one file at most one ever deletes its row, and the row does not come back. |
| `Files.OnlyTheOwnerDeletes` | internal/service/file_svc.go:109-123 | A file row is removed only by a deletion its owner called, and never changed; its file goes only by its own upload's clean-up as long as the row is there. |
| `Files.DeletionsExclude` | internal/service/file_svc.go:103-106 | With the lock, deletions of one file exclude each other from the row read to the file removal. |
| `FileService.FileService.Upload` | internal/service/file_svc.go:43-88 | The call is a run of the file protocol; result, row table and disk are exactly what size, type and the replies to the file write, the insert and the clean-up determine. |
| `FileService.FileService.Delete` | internal/service/file_svc.go:103-131 | The call is a run of the file protocol; result, row table and disk are exactly what row, owner and replies determine; the file goes only after its row. |
| `FileService.FileService.DeleteRow` | internal/service/file_svc.go:109-123 | The guard deletes the row for its owner exactly if statement or commit takes effect, and refuses exactly for the reason given. |
| `Names.LastElement` | internal/service/file_svc.go:60 | The base of a path is what stands behind its last slash: a name without slash is its own base behind any path. |
| `Names.TrailingSlashes` | internal/service/file_svc.go:60 | Slashes at the end of a path change nothing. |
| `Names.UploadedName` | internal/service/file_svc.go:60-64 | A file is stored under the last element of its filename, with underscore and ID in front of the extension, or behind "unnamed" if there is only an extension; the extension read back is that of the filename. |
| `Names.UploadedPath` | internal/service/file_svc.go:64 | And directly in its user's folder, whatever path the filename came with. |
| `Names.WalkCleans` | internal/service/file_svc.go:64 | Joining a path leaves ordinary elements only, so it never leads out of the root. |
| `Names.WalkUndoes` | internal/service/file_svc.go:64 | Joining drops empty and "." elements and lets ".." undo the element before it. |
| `Names.IdAndExtensionRecovered` | internal/service/file_svc.go:170-180 | From a stored name the file ID and the extension of the uploaded name can be read off, whatever the name. |
| `Names.StoredNamesDiffer` | internal/service/file_svc.go:170-180 | Stored names are equal only if IDs and extensions are. |
| `Names.LeafOrdinary` | internal/service/file_svc.go:59-64 | The name under which a file lies is an ordinary one for every uploaded name, and ID and extension can be read off it. |
| `Names.DirectChild` | internal/service/file_svc.go:59-64 | The file lies directly in its user's folder, for every uploaded name. |
| `Names.PathsDiffer` | internal/service/file_svc.go:64 | A path determines the user, the file ID and the extension. |
| `Names.EdgeNames` | internal/service/file_svc.go:60-63 | What becomes of an empty name, "." and "/". |
| `Names.HiddenName` | internal/service/file_svc.go:171-175 | A hidden file is stored as "unnamed" with its whole name as extension. |
| `Names.TrailingDot` | internal/service/file_svc.go:171-179 | A name that ends in a dot keeps it at the end; ".." is such a name. |
| `Files.FreshPath` | internal/service/file_svc.go:58-64 | A fresh ID gives a path that no earlier file has, whatever names were uploaded: what the file protocol relies on. |
| `Paging.Repository.FindByUser` | internal/repository/postgres/container_repo.go:46-75 | The row loop returns the window of the ordered rows at the offset, with the total. |
| `Paging.Repository.List` | internal/service/container_svc.go:78-89 | After normalisation of page and limit. |
| `Paging.PagesPartition` | internal/service/container_svc.go:78-89 | Pages 1 to ceil(total/limit) together are the whole list; all but the last are full; later pages are empty. |
| `Paging.PageServed` | internal/repository/postgres/container_repo.go:55-59 | A request gets the page it asked for exactly when its offset does not wrap around in 64 bits, or wraps past the end. |
| `Paging.OrdinaryPageServed` | internal/repository/postgres/container_repo.go:55-59 | Every page whose offset fits into 64 bits is served, those past the end as empty pages with the right total. |
| `Paging.PageHolds` | internal/service/container_svc.go:78-89 | A page holds the rows from (p - 1) * l on, at most l of them, and the total; p is 1 for smaller page numbers, l is 20 for limits below 1 and 100 for limits above 100. |
| `Paging.WrappedPages` | internal/repository/postgres/container_repo.go:55 | Page 2^62+1 with limit 4 is served as page 1, and the largest page number as a query error. |

## Left out

- Serialisability of runs with a crash: a crash cuts jobs off in the middle; what then holds of the row is `AllOrNothing.JobIsAtomic`.
- Serialisability of a split or unchecked container: two jobs of it can interleave on its row; the other containers of the run are serialisable all the same (`Serial.SerialisableApart`).
- Several server processes at once: recovery would mark another process's RUNNING jobs as FAILED; all theorems are about one process at a time.
- Graceful shutdown: the process returns as soon as shutdown begins (cmd/server/main.go), so it is a crash at any step.
- The `Get` calls, job queries, authentication, routing, request binding and error-code mapping: no property beyond one look-up.
- MIME sniffing: whether the type is allowed is a parameter of the upload. File contents are reduced to their size.
- Environment images, mount paths, command encoding and the user folder of a container: they are passed through and decide nothing but the failure of the directory creation.
- PostgreSQL and Docker internals: tables are maps with read-committed visibility and row locks held to the commit; Docker is a nondeterministic environment with unique names and fresh IDs, in which only this manager starts and removes containers.
- Waiting in the imperative classes: a call that would wait for a mutex or a row lock is not running yet; waiting and interleaving are modelled in the transition systems.
- Paging over a changing table: pages are taken from one fixed ordered list; rows with equal creation times are assumed to be returned in one fixed order.
- Wall-clock durations: the retry delay, the send deadline and the wait for a container to exit are nondeterministic answers; only the order of times matters.
