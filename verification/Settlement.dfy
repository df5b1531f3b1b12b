/**
 * How jobs end and how tasks come into the queue, told from the rows alone: what a worker's reading of the outcome
 * leads to, when a job of the server is done, what a runner's message leads to, and which steps queue a task.
 */
module Settlement {
  import opened Common
  import opened Envelopes
  import opened Tables
  import opened QueuedTasks
  import JobLaws
  import Gateway

  /** The worker still owns the job it is about to settle. */
  predicate StillOwns(s: System, w: nat) {
    w in s.workers && s.workers[w].Decided? && s.workers[w].t in s.store.jobs
    && s.store.jobs[s.workers[w].t].owner == Some(WorkerThread(w))
  }

  /** A run that ended like this has done its work. */
  predicate Succeeded(read: TaskStatus) {
    read == WaitingApproval || read == Completed
  }

  /**
   * What follows from the status a worker has read: a cancelled run cancels the job, a successful one completes it, and
   * any other is retried after its delay, with the task back in the queue, or fails for good when no attempt is left.
   */
  lemma SettlementDecides(s: System, w: nat, cfg: Settings)
    requires Able(s, Settle(w)) && StillOwns(s, w)
    ensures var t, read, s' := s.workers[w].t, s.workers[w].read, Next(s, Settle(w), cfg);
            var j := s.store.jobs[t];
            && t in s'.store.jobs && s'.store.jobs[t].owner == None && s'.workers[w] == Idle
            && (read == Cancelled ==> s'.store.jobs[t].status == JobCancelled && s'.store.tasks == s.store.tasks)
            && (Succeeded(read) ==> s'.store.jobs[t].status == Done && s'.store.tasks == s.store.tasks)
            && (read != Cancelled && !Succeeded(read) && j.attempts < j.maxAttempts ==>
                  && s'.store.jobs[t].status == Pending && s'.store.jobs[t].attempts == j.attempts
                  && s'.store.jobs[t].availableAt == JobLaws.DueAfter(s.store.now, cfg.retryBase, j.attempts)
                  && (t in s.store.tasks ==> IsQueued(s'.store, t)))
            && (read != Cancelled && !Succeeded(read) && j.attempts >= j.maxAttempts ==>
                  s'.store.jobs[t].status == JobFailed && s'.store.tasks == s.store.tasks)
  {
  }

  /** A worker whose lease went to somebody else changes nothing. */
  lemma LateSettlementChangesNothing(s: System, w: nat, cfg: Settings)
    requires Able(s, Settle(w)) && !StillOwns(s, w)
    ensures Next(s, Settle(w), cfg).store == s.store
  {
  }

  /** What a worker goes by is the status its task has when it looks. */
  lemma ReadingIsCurrent(s: System, w: nat, cfg: Settings)
    requires Able(s, Read(w))
    ensures var s', t := Next(s, Read(w), cfg), s.workers[w].t;
            s'.store == s.store && s'.workers[w] == Decided(t, s.store.tasks[t].status)
  {
  }

  // ---------------------------------------------------------------- when a job of the server is done

  predicate IsDone(s: Store, t: TaskId) {
    t in s.jobs && s.jobs[t].status == Done
  }

  /** The settlement of t by the worker that still owns its job and has read a success. */
  predicate SettlesAsDone(s: System, step: SystemStep, t: TaskId) {
    step.Settle? && StillOwns(s, step.w) && s.workers[step.w].t == t && Succeeded(s.workers[step.w].read)
  }

  predicate ForServer(s: Store, t: TaskId) {
    t in s.jobs && s.jobs[t].target == ServerTarget
  }

  /** A settlement is about the worker's own task. */
  lemma SettlementIsLocal(s: System, w: nat, cfg: Settings, u: TaskId)
    requires Able(s, Settle(w)) && u != s.workers[w].t
    ensures SameRow(s, Next(s, Settle(w), cfg), u)
  {
  }

  lemma SettlingIsDone(s: System, w: nat, cfg: Settings, t: TaskId)
    requires Able(s, Settle(w)) && !IsDone(s.store, t)
    ensures IsDone(Next(s, Settle(w), cfg).store, t) <==> SettlesAsDone(s, Settle(w), t)
  {
    if s.workers[w].t != t {
      SettlementIsLocal(s, w, cfg, t);
    } else if StillOwns(s, w) {
      SettlementDecides(s, w, cfg);
    } else {
      LateSettlementChangesNothing(s, w, cfg);
    }
  }

  lemma LeasesAreNotDone(s: System, step: SystemStep, cfg: Settings, t: TaskId)
    requires Able(s, step) && (step.Take? || step.AssignLease?) && !IsDone(s.store, t)
    ensures !IsDone(Next(s, step, cfg).store, t)
  {
  }

  lemma HandlersAreNotDone(s: System, step: SystemStep, cfg: Settings, t: TaskId)
    requires RowOk(s, t) && Able(s, step) && !IsDone(s.store, t) && (t in s.store.jobs ==> ForServer(s.store, t))
    requires step.HandlerWrite? || step.HandlerEnd? || step.HandlerFail? || step.HandlerAsk?
    ensures !IsDone(Next(s, step, cfg).store, t)
  {
  }

  /** One step makes a job of the server done if and only if its worker settles it having read a success. */
  lemma DoneIff(s: System, step: SystemStep, cfg: Settings, t: TaskId)
    requires Coupled(s) && Able(s, step) && !IsDone(s.store, t) && (t in s.store.jobs ==> ForServer(s.store, t))
    ensures IsDone(Next(s, step, cfg).store, t) <==> SettlesAsDone(s, step, t)
  {
    assert RowOk(s, t);
    match step
    case Settle(w) => SettlingIsDone(s, w, cfg, t);
    case Take(_, _) => LeasesAreNotDone(s, step, cfg, t);
    case AssignLease(_, _, _) => LeasesAreNotDone(s, step, cfg, t);
    case HandlerWrite(_, _, _) => HandlersAreNotDone(s, step, cfg, t);
    case HandlerEnd(_, _, _) => HandlersAreNotDone(s, step, cfg, t);
    case HandlerFail(_, _) => HandlersAreNotDone(s, step, cfg, t);
    case HandlerAsk(_, _) => HandlersAreNotDone(s, step, cfg, t);
    case _ =>
  }

  /** At some point of the run, with the steps before it, t was settled as done. */
  ghost predicate WasSettledAsDone(s: System, steps: seq<SystemStep>, cfg: Settings, t: TaskId)
    requires AbleAll(s, steps, cfg)
    decreases |steps|
  {
    steps != [] &&
    (SettlesAsDone(s, steps[0], t) || WasSettledAsDone(Next(s, steps[0], cfg), steps[1..], cfg, t))
  }

  /** Every task keeps its runner. */
  predicate SameRunner(s: Store, s': Store, t: TaskId) {
    t in s.tasks ==> t in s'.tasks && s'.tasks[t].runner == s.tasks[t].runner
  }

  lemma LeaseKeepsRunner(s: Store, target: Target, owner: Owner, leaseSeconds: int, pick: Option<TaskId>, t: TaskId)
    requires IsClaim(RecoverExpired(s, Some(target)), target, pick)
    ensures SameRunner(s, LeaseJob(s, target, owner, leaseSeconds, pick), t)
  {
  }

  lemma SettlementKeepsRunner(s: System, w: nat, cfg: Settings, t: TaskId)
    requires Able(s, Settle(w))
    ensures SameRunner(s.store, Next(s, Settle(w), cfg).store, t)
  {
    if s.workers[w].t != t { SettlementIsLocal(s, w, cfg, t); }
  }

  /** The target of a job is the one its task names, and no step changes that. */
  lemma TargetStays(s: System, step: SystemStep, cfg: Settings, t: TaskId)
    requires Able(s, step)
    ensures SameRunner(s.store, Next(s, step, cfg).store, t)
  {
    match step
    case Take(w, pick) => LeaseKeepsRunner(s.store, ServerTarget, WorkerThread(w), cfg.leaseSeconds, pick, t);
    case AssignLease(_, r, pick) =>
      LeaseKeepsRunner(s.store, RunnerTarget(r), RunnerOwner(r), cfg.leaseSeconds, pick, t);
    case Settle(w) => SettlementKeepsRunner(s, w, cfg, t);
    case _ =>
  }

  lemma {:induction false} RunnerStays(s: System, steps: seq<SystemStep>, cfg: Settings, t: TaskId)
    requires Coupled(s) && AbleAll(s, steps, cfg) && t in s.store.tasks
    ensures var e := NextAll(s, steps, cfg); t in e.store.tasks && e.store.tasks[t].runner == s.store.tasks[t].runner
    decreases |steps|
  {
    if steps != [] {
      TargetStays(s, steps[0], cfg, t);
      StepKeepsCoupling(s, steps[0], cfg);
      RunnerStays(Next(s, steps[0], cfg), steps[1..], cfg, t);
    }
  }

  lemma {:induction false} DoneWasSettled(s: System, steps: seq<SystemStep>, cfg: Settings, t: TaskId)
    requires Coupled(s) && AbleAll(s, steps, cfg) && !IsDone(s.store, t)
    requires var e := NextAll(s, steps, cfg); IsDone(e.store, t) && ForServer(e.store, t)
    ensures WasSettledAsDone(s, steps, cfg, t)
    decreases |steps|
  {
    if steps != [] {
      var s' := Next(s, steps[0], cfg);
      StepKeepsCoupling(s, steps[0], cfg);
      if IsDone(s'.store, t) {
        RunKeepsCoupling(s', steps[1..], cfg);
        assert RowOk(s, t) && RowOk(s', t) && RowOk(NextAll(s', steps[1..], cfg), t);
        RunnerStays(s', steps[1..], cfg, t);
        if t in s.store.jobs { TargetStays(s, steps[0], cfg, t); }
        DoneIff(s, steps[0], cfg, t);
      } else {
        DoneWasSettled(s', steps[1..], cfg, t);
      }
    }
  }

  /**
   * Over every run from empty tables: a job of the server is done only because a worker that owned it settled it having
   * read that the task awaits approval or is completed.
   */
  lemma ServerJobIsDoneByItsWorker(steps: seq<SystemStep>, cfg: Settings, start: int, t: TaskId)
    requires AbleAll(Empty(start), steps, cfg)
    requires var e := NextAll(Empty(start), steps, cfg); IsDone(e.store, t) && ForServer(e.store, t)
    ensures WasSettledAsDone(Empty(start), steps, cfg, t)
  {
    assert Coupled(Empty(start));
    DoneWasSettled(Empty(start), steps, cfg, t);
  }

  // ---------------------------------------------------------------- what queues a task

  /** The holder reports a failed attempt, and attempts are left. */
  predicate RetriedBy(s: Store, t: TaskId, owner: Owner) {
    t in s.jobs && s.jobs[t].owner == Some(owner) && s.jobs[t].attempts < s.jobs[t].maxAttempts
  }

  /** The step is the first write of a start, takes back the lease of t, or reports a failure that is retried. */
  ghost predicate Queues(s: System, step: SystemStep, t: TaskId)
    requires Able(s, step)
  {
    match step
    case StartWrite(_, u) => u == t
    case Sweep(only) => JobLaws.RunOut(s.store, t, only)
    case Take(_, _) => JobLaws.RunOut(s.store, t, Some(ServerTarget))
    case AssignLease(_, r, _) => JobLaws.RunOut(s.store, t, Some(RunnerTarget(r)))
    case HandlerFail(r, u) => u == t && RetriedBy(s.store, t, RunnerOwner(r))
    case Settle(w) =>
      && s.workers[w].t == t && RetriedBy(s.store, t, WorkerThread(w))
      && s.workers[w].read != Cancelled && !Succeeded(s.workers[w].read)
    case _ => false
  }

  /** The task is there and does not wait in the queue. */
  predicate NotQueued(s: Store, t: TaskId) {
    t in s.tasks && s.tasks[t].status != Queued
  }

  lemma RecoveryQueues(s: Store, only: Option<Target>, t: TaskId)
    requires NotQueued(s, t)
    ensures IsQueued(RecoverExpired(s, only), t) <==> JobLaws.RunOut(s, t, only)
  {
  }

  lemma LeaseQueues(s: Store, target: Target, owner: Owner, leaseSeconds: int, pick: Option<TaskId>, t: TaskId)
    requires NotQueued(s, t) && IsClaim(RecoverExpired(s, Some(target)), target, pick)
    ensures IsQueued(LeaseJob(s, target, owner, leaseSeconds, pick), t) <==> JobLaws.RunOut(s, t, Some(target))
  {
  }

  lemma FailureQueues(s: Store, u: TaskId, owner: Owner, retryBase: int, t: TaskId)
    requires NotQueued(s, t)
    ensures IsQueued(FailJob(s, u, owner, retryBase), t) <==> u == t && RetriedBy(s, t, owner)
  {
  }

  lemma SettlementQueues(s: System, w: nat, cfg: Settings, t: TaskId)
    requires Able(s, Settle(w)) && NotQueued(s.store, t)
    ensures IsQueued(Next(s, Settle(w), cfg).store, t) <==> Queues(s, Settle(w), t)
  {
    FailureQueues(s.store, s.workers[w].t, WorkerThread(w), cfg.retryBase, t);
  }

  lemma OtherStepQueues(s: System, step: SystemStep, cfg: Settings, t: TaskId)
    requires Able(s, step) && NotQueued(s.store, t)
    requires !step.Take? && !step.AssignLease? && !step.HandlerFail? && !step.Settle? && !step.Sweep?
    ensures IsQueued(Next(s, step, cfg).store, t) <==> Queues(s, step, t)
  {
  }

  /** A task enters the queue exactly with these steps; and whoever started it had found it a draft or failed. */
  lemma QueuedIff(s: System, step: SystemStep, cfg: Settings, t: TaskId)
    requires Able(s, step) && NotQueued(s.store, t)
    ensures IsQueued(Next(s, step, cfg).store, t) <==> Queues(s, step, t)
    ensures step.StartCheck? && step.t == t ==> s.store.tasks[t].status == Draft || s.store.tasks[t].status == Failed
  {
    match step
    case Sweep(only) => RecoveryQueues(s.store, only, t);
    case Take(w, pick) => LeaseQueues(s.store, ServerTarget, WorkerThread(w), cfg.leaseSeconds, pick, t);
    case AssignLease(_, r, pick) => LeaseQueues(s.store, RunnerTarget(r), RunnerOwner(r), cfg.leaseSeconds, pick, t);
    case HandlerFail(r, u) => FailureQueues(s.store, u, RunnerOwner(r), cfg.retryBase, t);
    case Settle(w) => SettlementQueues(s, w, cfg, t);
    case _ => OtherStepQueues(s, step, cfg, t);
  }

  // ---------------------------------------------------------------- what a runner's message leads to

  /** A task that is not the runner's, or whose job somebody else holds, as far as the runner is concerned. */
  predicate NotHeld(s: Store, r: RunnerId, t: TaskId) {
    t in s.jobs ==> s.jobs[t].owner != Some(RunnerOwner(r))
  }

  predicate NotOwn(s: Store, r: RunnerId, t: TaskId) {
    t in s.tasks ==> s.tasks[t].runner != Some(r)
  }

  predicate IsAbout(e: Envelope, active: Option<TaskId>, t: TaskId) {
    if e.mtype == Heartbeat then active == Some(t) else e.taskId == Some(t)
  }

  lemma OwnWriteTouches(s: Store, r: RunnerId, u: TaskId, row: TaskRow, t: TaskId)
    ensures var s' := Gateway.UpdateOwn(s, r, u, row);
            s'.jobs == s.jobs && (t != u || NotOwn(s, r, t) ==> JobLaws.SameRows(s, s', t))
  {
  }

  lemma JobCallsTouch(s: Store, u: TaskId, r: RunnerId, leaseSeconds: int, status: JobStatus, retryBase: int, t: TaskId)
    requires t != u || NotHeld(s, r, t)
    ensures JobLaws.SameRows(s, RenewJob(s, u, RunnerOwner(r), leaseSeconds), t)
    ensures JobLaws.SameRows(s, CompleteJob(s, u, RunnerOwner(r), status), t)
    ensures JobLaws.SameRows(s, FailJob(s, u, RunnerOwner(r), retryBase), t)
  {
  }

  lemma OutcomesTouchOwnRowsOnly(s: Store, e: Envelope, r: RunnerId, cfg: Settings, active: Option<TaskId>, t: TaskId)
    requires IsOutcome(e.mtype) && e.taskId.Some?
    ensures var s' := Gateway.Effect(s, e, r, cfg, active);
            && (e.taskId != Some(t) || (NotHeld(s, r, t) && NotOwn(s, r, t)) ==> JobLaws.SameRows(s, s', t))
            && (NotHeld(s, r, t) && t in s.jobs ==> t in s'.jobs && s'.jobs[t] == s.jobs[t])
  {
    var u := e.taskId.value;
    var row := Gateway.Row(s.tasks, u);
    var written := match e.mtype
      case TaskCompleted => row.(status := WaitingApproval, progress := 100)
      case TaskFailed => row.(status := Failed)
      case _ => row.(status := Cancelled);
    OwnWriteTouches(s, r, u, written, t);
    if u != t || NotHeld(s, r, t) {
      JobCallsTouch(Gateway.UpdateOwn(s, r, u, written), u, r, cfg.leaseSeconds,
                    if e.mtype == TaskCompleted then Done else JobCancelled, cfg.retryBase, t);
    }
  }

  lemma ProgressTouchesOwnRowsOnly(s: Store, e: Envelope, r: RunnerId, cfg: Settings, active: Option<TaskId>, t: TaskId)
    requires (e.mtype == TaskAccepted || e.mtype == TaskProgress) && e.taskId.Some?
    ensures var s' := Gateway.Effect(s, e, r, cfg, active);
            && (e.taskId != Some(t) || (NotHeld(s, r, t) && NotOwn(s, r, t)) ==> JobLaws.SameRows(s, s', t))
            && (NotHeld(s, r, t) && t in s.jobs ==> t in s'.jobs && s'.jobs[t] == s.jobs[t])
  {
    var u := e.taskId.value;
    var m := RenewJob(s, u, RunnerOwner(r), cfg.leaseSeconds);
    if u != t || NotHeld(s, r, t) { JobCallsTouch(s, u, r, cfg.leaseSeconds, Done, 0, t); }
    var row := Gateway.Row(m.tasks, u);
    OwnWriteTouches(m, r, u, row.(status := Accepted), t);
    OwnWriteTouches(m, r, u, Gateway.ProgressRow(row, e.payload), t);
  }

  /**
   * A message touches the rows of the task it is about, and none else; and it leaves a job that the runner does not
   * hold as it is, and the row of a task that is neither the runner's nor held by it.
   */
  lemma MessagesTouchOwnRowsOnly(s: Store, e: Envelope, r: RunnerId, cfg: Settings, active: Option<TaskId>, t: TaskId)
    ensures var s' := Gateway.Effect(s, e, r, cfg, active);
            && (!IsAbout(e, active, t) || (NotHeld(s, r, t) && NotOwn(s, r, t)) ==> JobLaws.SameRows(s, s', t))
            && (NotHeld(s, r, t) && t in s.jobs ==> t in s'.jobs && s'.jobs[t] == s.jobs[t])
  {
    if e.mtype == Heartbeat {
    } else if e.taskId.Some? {
      if IsOutcome(e.mtype) {
        OutcomesTouchOwnRowsOnly(s, e, r, cfg, active, t);
      } else if e.mtype == TaskAccepted || e.mtype == TaskProgress {
        ProgressTouchesOwnRowsOnly(s, e, r, cfg, active, t);
      }
    }
  }

  /** The runner holds the job of this task of its own. */
  predicate HoldsOwn(s: Store, r: RunnerId, t: TaskId) {
    && t in s.tasks && s.tasks[t].runner == Some(r)
    && t in s.jobs && s.jobs[t].status == Leased && s.jobs[t].owner == Some(RunnerOwner(r))
  }

  /** A sign of life renews the lease; a request for permission makes the task wait. */
  lemma SignOfLifeLeadsTo(s: Store, e: Envelope, r: RunnerId, cfg: Settings, active: Option<TaskId>, t: TaskId)
    requires HoldsOwn(s, r, t) && e.taskId == Some(t)
    requires e.mtype == TaskAccepted || e.mtype == TaskProgress || e.mtype == PermissionRequest
    ensures var s' := Gateway.Effect(s, e, r, cfg, active);
            && t in s'.jobs && t in s'.tasks
            && (e.mtype == TaskAccepted ==> s'.tasks[t] == s.tasks[t].(status := Accepted))
            && (e.mtype == TaskProgress && !e.payload.persisted ==> s'.tasks[t].status == Running)
            && (e.mtype == PermissionRequest ==>
                  s'.tasks[t] == s.tasks[t].(status := WaitPermission) && s'.jobs[t] == s.jobs[t])
            && (e.mtype != PermissionRequest ==>
                  s'.jobs[t] == s.jobs[t].(expiresAt := Some(s.now + cfg.leaseSeconds), updatedAt := s.now))
  {
  }

  /** An outcome the runner has not stored itself ends its job or, for a failure with attempts left, retries it. */
  lemma OutcomeLeadsTo(s: Store, e: Envelope, r: RunnerId, cfg: Settings, active: Option<TaskId>, t: TaskId)
    requires HoldsOwn(s, r, t) && e.taskId == Some(t) && !e.payload.persisted && IsOutcome(e.mtype)
    ensures var s' := Gateway.Effect(s, e, r, cfg, active);
            && t in s'.jobs && t in s'.tasks && s'.jobs[t].owner == None
            && (e.mtype == TaskCompleted ==>
                  s'.tasks[t].status == WaitingApproval && s'.tasks[t].progress == 100 && s'.jobs[t].status == Done)
            && (e.mtype == TaskCancelled ==> s'.tasks[t].status == Cancelled && s'.jobs[t].status == JobCancelled)
            && (e.mtype == TaskFailed && s.jobs[t].attempts < s.jobs[t].maxAttempts ==>
                  && s'.tasks[t].status == Queued && s'.jobs[t].status == Pending
                  && s'.jobs[t].availableAt == JobLaws.DueAfter(s.now, cfg.retryBase, s.jobs[t].attempts))
            && (e.mtype == TaskFailed && s.jobs[t].attempts >= s.jobs[t].maxAttempts ==>
                  s'.tasks[t].status == Failed && s'.jobs[t].status == JobFailed)
  {
  }

  /** A heartbeat of a busy runner renews the lease of its active task, and nothing else. */
  lemma HeartbeatRenews(s: Store, e: Envelope, r: RunnerId, cfg: Settings, active: Option<TaskId>, t: TaskId)
    requires e.mtype == Heartbeat && e.payload.busy && active == Some(t)
    requires t in s.jobs && s.jobs[t].status == Leased && s.jobs[t].owner == Some(RunnerOwner(r))
    ensures var s' := Gateway.Effect(s, e, r, cfg, active);
            && s'.tasks == s.tasks && t in s'.jobs
            && s'.jobs[t] == s.jobs[t].(expiresAt := Some(s.now + cfg.leaseSeconds), updatedAt := s.now)
  {
  }
}
