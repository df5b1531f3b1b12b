/**
 * The task and job tables of app/storage.py and the storage methods that change them.
 * Each `with self._lock, self._connect()` block of the source is one function from table state to table state.
 * `ledger` is a history variable: it records what happened to a job since it was last enqueued.
 */
module Tables {
  import opened Common
  import opened Envelopes

  datatype TaskStatus =
    | Draft | Queued | Assigned | Accepted | Running | WaitPermission
    | WaitingApproval | Completed | Failed | Cancelled

  datatype JobStatus = Pending | Leased | Done | JobFailed | JobCancelled

  datatype Target = ServerTarget | RunnerTarget(runner: RunnerId)
  datatype Owner = WorkerThread(id: nat) | RunnerOwner(runner: RunnerId)

  datatype TaskRow = TaskRow(
    status: TaskStatus,
    runner: Option<RunnerId>,
    stage: Option<Stage>,
    progress: int,
    cancelRequested: bool,
    createdAt: int)

  datatype Job = Job(
    target: Target,
    status: JobStatus,
    attempts: nat,
    maxAttempts: int,
    availableAt: int,
    owner: Option<Owner>,
    expiresAt: Option<int>,
    createdAt: int,
    updatedAt: int)

  datatype Ledger = Ledger(leases: nat, retries: nat, expiries: nat, backoff: int, ended: bool)

  const NEW_LEDGER: Ledger := Ledger(0, 0, 0, 0, false)

  /** A permission request: open until a user decides it. */
  datatype RequestRow = RequestRow(task: TaskId, open: bool)

  datatype Store = Store(
    now: int,
    tasks: map<TaskId, TaskRow>,
    jobs: map<TaskId, Job>,
    ledger: map<TaskId, Ledger>,
    requests: map<nat, RequestRow>)

  datatype Settings = Settings(leaseSeconds: int, maxAttempts: int, retryBase: int)

  // ---------------------------------------------------------------- task rows

  /** UPDATE tasks SET status = ... WHERE id = t: no row, no change. */
  function SetStatus(s: Store, t: TaskId, status: TaskStatus): Store {
    if t in s.tasks then s.(tasks := s.tasks[t := s.tasks[t].(status := status)]) else s
  }

  // ---------------------------------------------------------------- enqueue, recover, lease

  /** Insert a pending job, or reset the task's existing row; only a fresh row gets a new creation time. */
  function EnqueueJob(s: Store, t: TaskId, target: Target, maxAttempts: int): Store {
    var created := if t in s.jobs then s.jobs[t].createdAt else s.now;
    s.(jobs := s.jobs[t := Job(target, Pending, 0, maxAttempts, s.now, None, None, created, s.now)],
       ledger := s.ledger[t := NEW_LEDGER])
  }

  predicate LeaseExpired(j: Job, now: int) {
    j.status == Leased && j.expiresAt.Some? && j.expiresAt.value <= now
  }

  /** The rows one recovery pass selects; None recovers every target. */
  predicate Selected(s: Store, target: Option<Target>, t: TaskId) {
    t in s.jobs && LeaseExpired(s.jobs[t], s.now) && (target.Some? ==> s.jobs[t].target == target.value)
  }

  function LedgerOf(s: Store, t: TaskId): Ledger {
    if t in s.ledger then s.ledger[t] else NEW_LEDGER
  }

  function Expire(l: Ledger): Ledger {
    l.(expiries := l.expiries + 1)
  }

  /** Expired leases go back to pending and their tasks back to queued, all in one transaction. */
  function RecoverExpired(s: Store, target: Option<Target>): Store {
    s.(jobs := map t | t in s.jobs ::
         if Selected(s, target, t)
         then s.jobs[t].(status := Pending, owner := None, expiresAt := None, updatedAt := s.now)
         else s.jobs[t],
       tasks := map t | t in s.tasks ::
         if Selected(s, target, t) then s.tasks[t].(status := Queued) else s.tasks[t],
       ledger := map t | t in s.ledger ::
         if Selected(s, target, t) then Expire(s.ledger[t]) else s.ledger[t])
  }

  /** The WHERE clause of the claim query. */
  predicate Eligible(s: Store, target: Target, t: TaskId) {
    && t in s.jobs
    && s.jobs[t].target == target
    && s.jobs[t].status == Pending
    && s.jobs[t].availableAt <= s.now
  }

  /** ORDER BY created_at LIMIT 1: any eligible row of least creation time may be returned. */
  predicate IsClaim(s: Store, target: Target, pick: Option<TaskId>) {
    match pick
    case None => forall t | t in s.jobs :: !Eligible(s, target, t)
    case Some(t) =>
      && Eligible(s, target, t)
      && forall u | u in s.jobs && Eligible(s, target, u) :: s.jobs[t].createdAt <= s.jobs[u].createdAt
  }

  function Grant(s: Store, t: TaskId, owner: Owner, leaseSeconds: int): Store
    requires t in s.jobs
  {
    var j := s.jobs[t];
    s.(jobs := s.jobs[t := j.(status := Leased, attempts := j.attempts + 1, owner := Some(owner),
                              expiresAt := Some(s.now + leaseSeconds), updatedAt := s.now)],
       ledger := s.ledger[t := LedgerOf(s, t).(leases := LedgerOf(s, t).leases + 1)])
  }

  /** lease_job: recover the target's expired leases, then claim the oldest eligible job, if any. */
  function LeaseJob(s: Store, target: Target, owner: Owner, leaseSeconds: int, pick: Option<TaskId>): Store
    requires IsClaim(RecoverExpired(s, Some(target)), target, pick)
  {
    var r := RecoverExpired(s, Some(target));
    if pick.Some? then Grant(r, pick.value, owner, leaseSeconds) else r
  }

  // ---------------------------------------------------------------- renew, complete, fail, cancel, cleanup

  predicate Owns(s: Store, t: TaskId, owner: Owner) {
    t in s.jobs && s.jobs[t].owner == Some(owner)
  }

  function RenewJob(s: Store, t: TaskId, owner: Owner, leaseSeconds: int): Store {
    if Owns(s, t, owner) && s.jobs[t].status == Leased
    then s.(jobs := s.jobs[t := s.jobs[t].(expiresAt := Some(s.now + leaseSeconds), updatedAt := s.now)])
    else s
  }

  /** complete_job checks the lease owner only. */
  function CompleteJob(s: Store, t: TaskId, owner: Owner, status: JobStatus): Store {
    if Owns(s, t, owner)
    then s.(jobs := s.jobs[t := s.jobs[t].(status := status, owner := None, expiresAt := None, updatedAt := s.now)],
            ledger := s.ledger[t := LedgerOf(s, t).(ended := true)])
    else s
  }

  predicate Retries(j: Job) {
    j.attempts < j.maxAttempts
  }

  function Delay(j: Job, retryBase: int): int {
    retryBase * Pow2(Max(0, j.attempts - 1))
  }

  /** fail_job: back to pending after a doubling delay while attempts remain, otherwise failed for good. */
  function FailJob(s: Store, t: TaskId, owner: Owner, retryBase: int): Store {
    if !Owns(s, t, owner) then s
    else
      var j := s.jobs[t];
      var l := LedgerOf(s, t);
      if Retries(j) then
        SetStatus(
          s.(jobs := s.jobs[t := j.(status := Pending, availableAt := s.now + Delay(j, retryBase), owner := None,
                                    expiresAt := None, updatedAt := s.now)],
             ledger := s.ledger[t := l.(retries := l.retries + 1, backoff := l.backoff + Delay(j, retryBase))]),
          t, Queued)
      else
        s.(jobs := s.jobs[t := j.(status := JobFailed, availableAt := s.now, owner := None,
                                  expiresAt := None, updatedAt := s.now)],
           ledger := s.ledger[t := l.(ended := true)])
  }

  function CancelJob(s: Store, t: TaskId): Store {
    if t in s.jobs && s.jobs[t].status == Pending
    then s.(jobs := s.jobs[t := s.jobs[t].(status := JobCancelled, owner := None, expiresAt := None,
                                           updatedAt := s.now)])
    else s
  }

  predicate Removable(j: Job, cutoff: int) {
    j.updatedAt < cutoff && (j.status == Done || j.status == JobCancelled || j.status == JobFailed)
  }

  /** The job part of cleanup_expired_data. */
  function CleanupJobs(s: Store, cutoff: int): Store {
    s.(jobs := map t | t in s.jobs && !Removable(s.jobs[t], cutoff) :: s.jobs[t],
       ledger := map t | t in s.ledger && !(t in s.jobs && Removable(s.jobs[t], cutoff)) :: s.ledger[t])
  }

  // ---------------------------------------------------------------- WorkflowEngine.start and cancel

  function TargetOf(row: TaskRow): Target {
    if row.runner.Some? then RunnerTarget(row.runner.value) else ServerTarget
  }

  /** start is refused except for a draft or failed task. */
  predicate CanStart(s: Store, t: TaskId) {
    t in s.tasks && (s.tasks[t].status == Draft || s.tasks[t].status == Failed)
  }

  /** And unless the task's runner is registered or, for a task of the server, the agent routes are valid. */
  predicate MayStart(s: Store, t: TaskId, runners: set<RunnerId>, routesOk: bool) {
    CanStart(s, t) && if s.tasks[t].runner.Some? then s.tasks[t].runner.value in runners else routesOk
  }

  function StartTask(s: Store, t: TaskId, maxAttempts: int): Store
    requires CanStart(s, t)
  {
    var row := s.tasks[t].(status := Queued, progress := 1, cancelRequested := false);
    EnqueueJob(s.(tasks := s.tasks[t := row]), t, TargetOf(row), maxAttempts)
  }

  function CancelTask(s: Store, t: TaskId): Store
    requires t in s.tasks
  {
    var row := s.tasks[t];
    if row.status == Completed || row.status == Cancelled then s
    else if row.status == Queued then
      var r := CancelJob(s, t);
      r.(tasks := r.tasks[t := row.(status := Cancelled, cancelRequested := true)])
    else s.(tasks := s.tasks[t := row.(cancelRequested := true)])
  }

  // ---------------------------------------------------------------- permission requests

  /** create_permission_request: a request that is known already stays as it is. */
  function AskPermission(s: Store, request: nat, t: TaskId): Store {
    if request in s.requests then s else s.(requests := s.requests[request := RequestRow(t, true)])
  }

  predicate IsOpen(s: Store, request: nat) {
    request in s.requests && s.requests[request].open
  }

  /** resolve_permission_request, where it is not refused. */
  function ResolveRequest(s: Store, request: nat): Store
    requires IsOpen(s, request)
  {
    s.(requests := s.requests[request := s.requests[request].(open := false)])
  }

  // ---------------------------------------------------------------- the active task of a runner

  predicate IsActiveStatus(st: TaskStatus) {
    st == Assigned || st == Accepted || st == Running || st == WaitPermission
  }

  predicate IsActiveFor(s: Store, r: RunnerId, t: TaskId) {
    t in s.tasks && s.tasks[t].runner == Some(r) && IsActiveStatus(s.tasks[t].status)
  }

  /** get_runner_active_task: some active task of least creation time. */
  predicate IsActivePick(s: Store, r: RunnerId, pick: Option<TaskId>) {
    match pick
    case None => forall t | t in s.tasks :: !IsActiveFor(s, r, t)
    case Some(t) =>
      && IsActiveFor(s, r, t)
      && forall u | u in s.tasks && IsActiveFor(s, r, u) :: s.tasks[t].createdAt <= s.tasks[u].createdAt
  }
}
