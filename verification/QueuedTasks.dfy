/**
 * The task table coupled to the job table through the program counters of the worker threads (app/worker.py), with
 * gateway handlers, user commands, recovery and cleanup interleaved. Every call of a storage method is a step.
 * A queued task has a live job row, unless a start, a cancellation or an assignment is between its two writes.
 */
module QueuedTasks {
  import opened Common
  import opened Envelopes
  import opened Tables
  import JobLedger
  import JobStorage
  import Gateway

  /** Where a worker thread is in _run_loop and _execute_job. */
  datatype Pc =
    | Idle
    | Holding(t: TaskId)
    | Working(t: TaskId)
    | Finished(t: TaskId)
    | Decided(t: TaskId, read: TaskStatus)

  /** Where a start, a cancellation or an assignment is that has not come to its end. */
  datatype Op =
    | Checked(t: TaskId)
    | Queueing(t: TaskId)
    | Seen(t: TaskId)
    | Unjobbed(t: TaskId)
    | Assigning(t: TaskId)

  /**
   * `ops` are the operations under way, by a name of their own. A worker that crashes simply takes no further step, and
   * so does an operation whose process dies; a restarted process has threads with new names.
   */
  datatype System = System(store: Store, workers: map<nat, Pc>, ops: map<nat, Op>)

  datatype SystemStep =
    | Wait(to: int)
    | Create(t: TaskId, runner: Option<RunnerId>)
    | StartCheck(o: nat, t: TaskId)
    | StartWrite(o: nat, t: TaskId)
    | StartEnqueue(o: nat, t: TaskId)
    | CancelRead(o: nat, t: TaskId)
    | CancelEnqueued(o: nat, t: TaskId)
    | CancelWrite(o: nat, t: TaskId)
    | CancelFlag(t: TaskId)
    | Approve(t: TaskId)
    | Permit(t: TaskId)
    | Deny(t: TaskId)
    | Sweep(only: Option<Target>)
    | Purge(cutoff: int)
    | Extend(t: TaskId, owner: Owner)
    | Spawn(w: nat)
    | Take(w: nat, pick: Option<TaskId>)
    | Begin(w: nat)
    | Write(w: nat, status: TaskStatus, stage: Option<Stage>, progress: int)
    | Finish(w: nat)
    | Read(w: nat)
    | Settle(w: nat)
    | HandlerWrite(r: RunnerId, t: TaskId, row: TaskRow)
    | HandlerEnd(r: RunnerId, t: TaskId, outcome: JobStatus)
    | HandlerFail(r: RunnerId, t: TaskId)
    | HandlerAsk(request: nat, t: TaskId)
    | AssignLease(o: nat, r: RunnerId, pick: Option<TaskId>)
    | AssignWrite(o: nat, t: TaskId)

  /** The statuses the workflow itself writes. */
  predicate WorkflowWrites(st: TaskStatus) {
    st == Running || st == Failed || st == Cancelled || st == WaitingApproval
  }

  predicate IsAt(s: System, o: nat, op: Op) {
    o in s.ops && s.ops[o] == op && op.t in s.store.tasks
  }

  /** A handler writes statuses, stages and progress, and does not queue a task. */
  predicate HandlerWrites(s: Store, t: TaskId, row: TaskRow) {
    row.status != Queued &&
    (t in s.tasks ==> row == s.tasks[t].(status := row.status, stage := row.stage, progress := row.progress))
  }

  ghost predicate Able(s: System, step: SystemStep) {
    match step
    case Wait(to) => to >= s.store.now
    case Create(t, _) => t !in s.store.tasks && t !in s.store.jobs
    case StartCheck(o, t) => o !in s.ops && CanStart(s.store, t)
    case StartWrite(o, t) => IsAt(s, o, Checked(t))
    case StartEnqueue(o, t) => IsAt(s, o, Queueing(t))
    case CancelRead(o, t) => o !in s.ops && IsQueued(s.store, t)
    case CancelEnqueued(o, t) => IsAt(s, o, Seen(t))
    case CancelWrite(o, t) => IsAt(s, o, Unjobbed(t))
    case CancelFlag(t) => t in s.store.tasks
    case Approve(t) => t in s.store.tasks
    case Spawn(w) => w !in s.workers
    case Take(w, pick) =>
      w in s.workers && s.workers[w] == Idle
      && IsClaim(RecoverExpired(s.store, Some(ServerTarget)), ServerTarget, pick)
    case Begin(w) => w in s.workers && s.workers[w].Holding?
    case Write(w, status, _, _) => w in s.workers && s.workers[w].Working? && WorkflowWrites(status)
    case Finish(w) => w in s.workers && s.workers[w].Working?
    case Read(w) => w in s.workers && s.workers[w].Finished? && s.workers[w].t in s.store.tasks
    case Settle(w) => w in s.workers && s.workers[w].Decided?
    case HandlerWrite(_, t, row) => HandlerWrites(s.store, t, row)
    case HandlerEnd(_, _, outcome) => outcome == Done || outcome == JobCancelled || outcome == JobFailed
    case AssignLease(o, r, pick) =>
      o !in s.ops && IsClaim(RecoverExpired(s.store, Some(RunnerTarget(r))), RunnerTarget(r), pick)
    case AssignWrite(o, t) => IsAt(s, o, Assigning(t))
    case _ => true
  }

  /** How _execute_job ends: by the status it read, not by the status the row has now. */
  function SettleJob(s: Store, w: nat, t: TaskId, read: TaskStatus, cfg: Settings): Store {
    match read
    case Failed => FailJob(s, t, WorkerThread(w), cfg.retryBase)
    case Cancelled => CompleteJob(s, t, WorkerThread(w), JobCancelled)
    case WaitingApproval => CompleteJob(s, t, WorkerThread(w), Done)
    case Completed => CompleteJob(s, t, WorkerThread(w), Done)
    case _ => FailJob(s, t, WorkerThread(w), cfg.retryBase)
  }

  function WriteRow(s: Store, t: TaskId, status: TaskStatus, stage: Option<Stage>, progress: int): Store {
    if t in s.tasks then s.(tasks := s.tasks[t := s.tasks[t].(status := status, stage := stage, progress := progress)])
    else s
  }

  function WithRow(s: Store, t: TaskId, row: TaskRow): Store {
    s.(tasks := s.tasks[t := row])
  }

  ghost function Next(s: System, step: SystemStep, cfg: Settings): System
    requires Able(s, step)
  {
    match step
    case Wait(to) => s.(store := s.store.(now := to))
    case Create(t, runner) =>
      s.(store := s.store.(tasks := s.store.tasks[t := TaskRow(Draft, runner, None, 0, false, s.store.now)]))
    case StartCheck(o, t) => s.(ops := s.ops[o := Checked(t)])
    case StartWrite(o, t) =>
      var row := s.store.tasks[t].(status := Queued, progress := 1, cancelRequested := false);
      s.(store := WithRow(s.store, t, row), ops := s.ops[o := Queueing(t)])
    case StartEnqueue(o, t) =>
      s.(store := EnqueueJob(s.store, t, TargetOf(s.store.tasks[t]), cfg.maxAttempts), ops := s.ops - {o})
    case CancelRead(o, t) => s.(ops := s.ops[o := Seen(t)])
    case CancelEnqueued(o, t) => s.(store := CancelJob(s.store, t), ops := s.ops[o := Unjobbed(t)])
    case CancelWrite(o, t) =>
      var row := s.store.tasks[t].(status := Cancelled, cancelRequested := true);
      s.(store := WithRow(s.store, t, row), ops := s.ops - {o})
    case CancelFlag(t) => s.(store := WithRow(s.store, t, s.store.tasks[t].(cancelRequested := true)))
    case Approve(t) => s.(store := SetStatus(s.store, t, Completed))
    case Permit(t) => s.(store := SetStatus(s.store, t, Running))
    case Deny(t) => s.(store := SetStatus(s.store, t, Failed))
    case Sweep(only) => s.(store := RecoverExpired(s.store, only))
    case Purge(cutoff) => s.(store := CleanupJobs(s.store, cutoff))
    case Extend(t, owner) => s.(store := RenewJob(s.store, t, owner, cfg.leaseSeconds))
    case Spawn(w) => s.(workers := s.workers[w := Idle])
    case Take(w, pick) =>
      s.(store := LeaseJob(s.store, ServerTarget, WorkerThread(w), cfg.leaseSeconds, pick),
         workers := if pick.Some? then s.workers[w := Holding(pick.value)] else s.workers)
    case Begin(w) =>
      s.(store := SetStatus(s.store, s.workers[w].t, Running), workers := s.workers[w := Working(s.workers[w].t)])
    case Write(w, status, stage, progress) =>
      s.(store := WriteRow(s.store, s.workers[w].t, status, stage, progress))
    case Finish(w) => s.(workers := s.workers[w := Finished(s.workers[w].t)])
    case Read(w) => s.(workers := s.workers[w := Decided(s.workers[w].t, s.store.tasks[s.workers[w].t].status)])
    case Settle(w) =>
      s.(store := SettleJob(s.store, w, s.workers[w].t, s.workers[w].read, cfg), workers := s.workers[w := Idle])
    case HandlerWrite(r, t, row) => s.(store := Gateway.UpdateOwn(s.store, r, t, row))
    case HandlerEnd(r, t, outcome) => s.(store := CompleteJob(s.store, t, RunnerOwner(r), outcome))
    case HandlerFail(r, t) => s.(store := FailJob(s.store, t, RunnerOwner(r), cfg.retryBase))
    case HandlerAsk(request, t) => s.(store := AskPermission(s.store, request, t))
    case AssignLease(o, r, pick) =>
      s.(store := LeaseJob(s.store, RunnerTarget(r), RunnerOwner(r), cfg.leaseSeconds, pick),
         ops := if pick.Some? then s.ops[o := Assigning(pick.value)] else s.ops)
    case AssignWrite(o, t) =>
      s.(store := WithRow(s.store, t, s.store.tasks[t].(status := Assigned)), ops := s.ops - {o})
  }

  ghost predicate AbleAll(s: System, steps: seq<SystemStep>, cfg: Settings)
    decreases |steps|
  {
    steps == [] || (Able(s, steps[0]) && AbleAll(Next(s, steps[0], cfg), steps[1..], cfg))
  }

  ghost function NextAll(s: System, steps: seq<SystemStep>, cfg: Settings): System
    requires AbleAll(s, steps, cfg)
    decreases |steps|
  {
    if steps == [] then s else NextAll(Next(s, steps[0], cfg), steps[1..], cfg)
  }

  lemma OneStep(s: System, a: SystemStep, end: System, cfg: Settings)
    requires Able(s, a) && end == Next(s, a, cfg)
    ensures AbleAll(s, [a], cfg) && NextAll(s, [a], cfg) == end
  {
    assert [a][1..] == [];
  }

  lemma TwoSteps(s: System, a: SystemStep, s1: System, b: SystemStep, end: System, cfg: Settings)
    requires Able(s, a) && s1 == Next(s, a, cfg) && Able(s1, b) && end == Next(s1, b, cfg)
    ensures AbleAll(s, [a, b], cfg) && NextAll(s, [a, b], cfg) == end
  {
    OneStep(s1, b, end, cfg);
    assert [a, b][1..] == [b];
  }

  lemma ThreeSteps(
      s: System, a: SystemStep, s1: System, b: SystemStep, s2: System, c: SystemStep, end: System, cfg: Settings)
    requires Able(s, a) && s1 == Next(s, a, cfg) && Able(s1, b) && s2 == Next(s1, b, cfg)
    requires Able(s2, c) && end == Next(s2, c, cfg)
    ensures AbleAll(s, [a, b, c], cfg) && NextAll(s, [a, b, c], cfg) == end
  {
    TwoSteps(s1, b, s2, c, end, cfg);
    assert [a, b, c][1..] == [b, c];
  }

  lemma {:induction false} RunsOn(
      s: System, a: seq<SystemStep>, mid: System, b: seq<SystemStep>, end: System, cfg: Settings)
    requires AbleAll(s, a, cfg) && NextAll(s, a, cfg) == mid && AbleAll(mid, b, cfg) && NextAll(mid, b, cfg) == end
    ensures AbleAll(s, a + b, cfg) && NextAll(s, a + b, cfg) == end
    decreases |a|
  {
    if a == [] {
      assert a + b == b;
    } else {
      RunsOn(Next(s, a[0], cfg), a[1..], mid, b, end, cfg);
      assert (a + b)[1..] == a[1..] + b;
    }
  }

  // ---------------------------------------------------------------- the coupling invariant

  predicate IsQueued(s: Store, t: TaskId) {
    t in s.tasks && s.tasks[t].status == Queued
  }

  predicate Live(s: Store, t: TaskId) {
    t in s.jobs && (s.jobs[t].status == Pending || s.jobs[t].status == Leased)
  }

  /** A start, a cancellation or an assignment of t is between its two writes. */
  predicate Caught(ops: map<nat, Op>, t: TaskId) {
    exists o :: o in ops && ops[o].t == t && (ops[o].Queueing? || ops[o].Unjobbed? || ops[o].Assigning?)
  }

  /** The task waits in the queue, and nothing is half done about it. */
  predicate Waits(s: System, t: TaskId) {
    IsQueued(s.store, t) && !Caught(s.ops, t)
  }

  /** Who may hold the job of t: the task's own runner, or the worker whose program counter names t. */
  predicate HolderOk(s: System, t: TaskId, j: Job) {
    match j.owner
    case None => true
    case Some(RunnerOwner(r)) => j.target == RunnerTarget(r) && !Waits(s, t)
    case Some(WorkerThread(w)) =>
      && w in s.workers && !s.workers[w].Idle? && s.workers[w].t == t
      && (Waits(s, t) ==> s.workers[w].Holding?)
  }

  predicate JobRowOk(s: System, t: TaskId) {
    t in s.store.jobs ==>
      && JobLedger.Shaped(s.store.jobs[t])
      && t in s.store.tasks
      && s.store.jobs[t].target == TargetOf(s.store.tasks[t])
      && HolderOk(s, t, s.store.jobs[t])
  }

  predicate RowOk(s: System, t: TaskId) {
    JobRowOk(s, t) && (Waits(s, t) ==> Live(s.store, t))
  }

  ghost predicate Coupled(s: System) {
    forall t: TaskId :: RowOk(s, t)
  }

  /** Rows of other tasks are untouched, and so are the program counters that name them. */
  predicate SameRow(s: System, s': System, t: TaskId) {
    && (t in s'.store.tasks <==> t in s.store.tasks)
    && (t in s.store.tasks ==> s'.store.tasks[t] == s.store.tasks[t])
    && (t in s'.store.jobs <==> t in s.store.jobs)
    && (t in s.store.jobs ==> s'.store.jobs[t] == s.store.jobs[t])
  }

  /** No gap about another task is closed. */
  ghost predicate SameGaps(s: System, s': System, t: TaskId) {
    forall u: TaskId | u != t :: Caught(s.ops, u) ==> Caught(s'.ops, u)
  }

  predicate SamePc(s: System, s': System, w: nat) {
    w in s.workers ==> w in s'.workers && s'.workers[w] == s.workers[w]
  }

  /** A step about one task t and at most one worker, which named no other task before. */
  lemma OneTaskStep(s: System, s': System, t: TaskId, who: Option<nat>)
    requires Coupled(s) && RowOk(s', t)
    requires forall u: TaskId | u != t :: SameRow(s, s', u)
    requires s'.ops == s.ops || SameGaps(s, s', t)
    requires forall w: nat | who != Some(w) :: SamePc(s, s', w)
    requires who.Some? && who.value in s.workers ==> s.workers[who.value].Idle? || s.workers[who.value].t == t
    ensures Coupled(s')
  {
    forall u: TaskId ensures RowOk(s', u) {
      if u != t {
        assert SameRow(s, s', u) && RowOk(s, u);
        if u in s.store.jobs && s.store.jobs[u].owner.Some? && s.store.jobs[u].owner.value.WorkerThread? {
          assert SamePc(s, s', s.store.jobs[u].owner.value.id);
        }
      }
    }
  }

  /** One operation about t moves on, or ends. */
  lemma OpMoves(s: System, s': System, o: nat, t: TaskId)
    requires o in s.ops ==> s.ops[o].t == t
    requires s'.ops == s.ops - {o} || (o in s'.ops && s'.ops == s.ops[o := s'.ops[o]] && s'.ops[o].t == t)
    ensures SameGaps(s, s', t)
  {
    forall u: TaskId | u != t && Caught(s.ops, u) ensures Caught(s'.ops, u) {
      var p :| p in s.ops && s.ops[p].t == u && (s.ops[p].Queueing? || s.ops[p].Unjobbed? || s.ops[p].Assigning?);
      assert p in s'.ops && s'.ops[p] == s.ops[p];
    }
  }

  lemma SweepKeepsCoupling(s: System, only: Option<Target>)
    requires Coupled(s)
    ensures Coupled(s.(store := RecoverExpired(s.store, only)))
  {
    var s' := s.(store := RecoverExpired(s.store, only));
    forall t: TaskId ensures RowOk(s', t) {
      assert RowOk(s, t);
    }
  }

  lemma PurgeKeepsCoupling(s: System, cutoff: int)
    requires Coupled(s)
    ensures Coupled(s.(store := CleanupJobs(s.store, cutoff)))
  {
    var s' := s.(store := CleanupJobs(s.store, cutoff));
    forall t: TaskId ensures RowOk(s', t) {
      assert RowOk(s, t);
    }
  }

  /** Any write to one task row that does not queue the task, by whatever process. */
  lemma RowWriteKeepsCoupling(s: System, s': System, t: TaskId)
    requires Coupled(s) && t in s.store.tasks && t in s'.store.tasks
    requires s' == s.(store := s.store.(tasks := s.store.tasks[t := s'.store.tasks[t]]))
    requires s'.store.tasks[t].status != Queued && s'.store.tasks[t].runner == s.store.tasks[t].runner
    ensures Coupled(s')
  {
    assert RowOk(s, t);
    OneTaskStep(s, s', t, None);
  }

  lemma StatusKeepsCoupling(s: System, t: TaskId, status: TaskStatus)
    requires Coupled(s) && status != Queued
    ensures Coupled(s.(store := SetStatus(s.store, t, status)))
  {
    if t in s.store.tasks {
      RowWriteKeepsCoupling(s, s.(store := SetStatus(s.store, t, status)), t);
    }
  }

  lemma GrantKeepsCoupling(s: System, s': System, t: TaskId, owner: Owner, leaseSeconds: int)
    requires Coupled(s) && t in s.store.jobs && s.store.jobs[t].status == Pending
    requires s'.store.jobs == Grant(s.store, t, owner, leaseSeconds).jobs
    requires forall u: TaskId | u != t :: (u in s'.store.tasks <==> u in s.store.tasks)
                                          && (u in s.store.tasks ==> s'.store.tasks[u] == s.store.tasks[u])
    requires t in s'.store.tasks && t in s.store.tasks && s'.store.tasks[t].runner == s.store.tasks[t].runner
    requires owner.WorkerThread? ==>
               && owner.id in s.workers && s.workers[owner.id].Idle?
               && s'.workers == s.workers[owner.id := Holding(t)]
    requires owner.RunnerOwner? ==>
               && s.store.jobs[t].target == RunnerTarget(owner.runner) && Caught(s'.ops, t)
               && s'.workers == s.workers
    requires s'.ops == s.ops || SameGaps(s, s', t)
    ensures Coupled(s')
  {
    assert RowOk(s, t);
    assert HolderOk(s', t, s'.store.jobs[t]);
    OneTaskStep(s, s', t, if owner.WorkerThread? then Some(owner.id) else None);
  }

  lemma TakeKeepsCoupling(s: System, w: nat, pick: Option<TaskId>, cfg: Settings)
    requires Coupled(s) && Able(s, Take(w, pick))
    ensures Coupled(Next(s, Take(w, pick), cfg))
  {
    var r := s.(store := RecoverExpired(s.store, Some(ServerTarget)));
    SweepKeepsCoupling(s, Some(ServerTarget));
    if pick.Some? {
      assert RowOk(r, pick.value);
      GrantKeepsCoupling(r, Next(s, Take(w, pick), cfg), pick.value, WorkerThread(w), cfg.leaseSeconds);
    }
  }

  lemma LeaseKeepsCoupling(s: System, o: nat, r: RunnerId, pick: Option<TaskId>, cfg: Settings)
    requires Coupled(s) && Able(s, AssignLease(o, r, pick))
    ensures Coupled(Next(s, AssignLease(o, r, pick), cfg))
  {
    var m := s.(store := RecoverExpired(s.store, Some(RunnerTarget(r))));
    SweepKeepsCoupling(s, Some(RunnerTarget(r)));
    if pick.Some? {
      var s' := Next(s, AssignLease(o, r, pick), cfg);
      assert RowOk(m, pick.value);
      OpMoves(m, s', o, pick.value);
      assert s'.ops[o] == Assigning(pick.value);
      GrantKeepsCoupling(m, s', pick.value, RunnerOwner(r), cfg.leaseSeconds);
    }
  }

  lemma RenewKeepsCoupling(s: System, t: TaskId, owner: Owner, leaseSeconds: int)
    requires Coupled(s)
    ensures Coupled(s.(store := RenewJob(s.store, t, owner, leaseSeconds)))
  {
    assert RowOk(s, t);
    OneTaskStep(s, s.(store := RenewJob(s.store, t, owner, leaseSeconds)), t, None);
  }

  /** An owner may end a job only when its task does not wait; others change nothing. */
  lemma EndKeepsCoupling(s: System, t: TaskId, owner: Owner, status: JobStatus)
    requires Coupled(s) && status != Pending && status != Leased
    requires Owns(s.store, t, owner) ==> !Waits(s, t)
    ensures Coupled(s.(store := CompleteJob(s.store, t, owner, status)))
    ensures !Owns(CompleteJob(s.store, t, owner, status), t, owner)
  {
    assert RowOk(s, t);
    OneTaskStep(s, s.(store := CompleteJob(s.store, t, owner, status)), t, None);
  }

  lemma FailKeepsCoupling(s: System, t: TaskId, owner: Owner, retryBase: int)
    requires Coupled(s)
    requires Owns(s.store, t, owner) ==> !Waits(s, t)
    ensures Coupled(s.(store := FailJob(s.store, t, owner, retryBase)))
    ensures !Owns(FailJob(s.store, t, owner, retryBase), t, owner)
  {
    assert RowOk(s, t);
    OneTaskStep(s, s.(store := FailJob(s.store, t, owner, retryBase)), t, None);
  }

  lemma PcKeepsCoupling(s: System, s': System, w: nat)
    requires Coupled(s) && w in s.workers && !s.workers[w].Idle?
    requires s'.store == s.store && w in s'.workers && s' == s.(workers := s.workers[w := s'.workers[w]])
    requires !s'.workers[w].Idle? ==>
               s'.workers[w].t == s.workers[w].t && (s.workers[w].Holding? ==> s'.workers[w].Holding?)
    requires s'.workers[w].Idle? ==> !Owns(s.store, s.workers[w].t, WorkerThread(w))
    ensures Coupled(s')
  {
    assert RowOk(s, s.workers[w].t);
    OneTaskStep(s, s', s.workers[w].t, Some(w));
  }

  lemma SpawnKeepsCoupling(s: System, w: nat)
    requires Coupled(s) && w !in s.workers
    ensures Coupled(s.(workers := s.workers[w := Idle]))
  {
    var s' := s.(workers := s.workers[w := Idle]);
    forall t: TaskId ensures RowOk(s', t) {
      assert RowOk(s, t);
    }
  }

  lemma BeginKeepsCoupling(s: System, w: nat, cfg: Settings)
    requires Coupled(s) && Able(s, Begin(w))
    ensures Coupled(Next(s, Begin(w), cfg))
  {
    var t := s.workers[w].t;
    assert RowOk(s, t);
    OneTaskStep(s, Next(s, Begin(w), cfg), t, Some(w));
  }

  lemma SettleKeepsCoupling(s: System, w: nat, cfg: Settings)
    requires Coupled(s) && Able(s, Settle(w))
    ensures Coupled(Next(s, Settle(w), cfg))
  {
    var t, read, owner := s.workers[w].t, s.workers[w].read, WorkerThread(w);
    assert RowOk(s, t);
    var m := s.(store := SettleJob(s.store, w, t, read, cfg));
    match read {
      case Cancelled => EndKeepsCoupling(s, t, owner, JobCancelled);
      case WaitingApproval => EndKeepsCoupling(s, t, owner, Done);
      case Completed => EndKeepsCoupling(s, t, owner, Done);
      case _ => FailKeepsCoupling(s, t, owner, cfg.retryBase);
    }
    assert Coupled(m) && !Owns(m.store, t, owner);
    PcKeepsCoupling(m, Next(s, Settle(w), cfg), w);
  }

  /** A step of a start, a cancellation or an assignment: either the gap is open, or the row is in order again. */
  lemma OpKeepsCoupling(s: System, step: SystemStep, o: nat, t: TaskId, cfg: Settings)
    requires Coupled(s) && Able(s, step)
    requires step == StartCheck(o, t) || step == StartWrite(o, t) || step == StartEnqueue(o, t)
             || step == CancelRead(o, t) || step == CancelEnqueued(o, t) || step == CancelWrite(o, t)
             || step == AssignWrite(o, t)
    ensures Coupled(Next(s, step, cfg))
  {
    var s' := Next(s, step, cfg);
    assert RowOk(s, t);
    OpMoves(s, s', o, t);
    if step.StartCheck? || step.CancelRead? { CheckOpensNoGap(s, s', o, t); }
    if step.StartWrite? { assert s'.ops[o] == Queueing(t); }
    if step.CancelEnqueued? { assert s'.ops[o] == Unjobbed(t); }
    OneTaskStep(s, s', t, None);
  }

  lemma CheckOpensNoGap(s: System, s': System, o: nat, t: TaskId)
    requires o !in s.ops && o in s'.ops && s'.ops == s.ops[o := s'.ops[o]]
    requires s'.ops[o] == Checked(t) || s'.ops[o] == Seen(t)
    ensures forall u: TaskId :: Caught(s'.ops, u) <==> Caught(s.ops, u)
  {
    forall u: TaskId ensures Caught(s'.ops, u) <==> Caught(s.ops, u) {
      if Caught(s.ops, u) {
        var p :| p in s.ops && s.ops[p].t == u && (s.ops[p].Queueing? || s.ops[p].Unjobbed? || s.ops[p].Assigning?);
        assert s'.ops[p] == s.ops[p];
      }
    }
  }

  /** A cancellation of a task that was not in the queue only sets the flag. */
  lemma FlagKeepsCoupling(s: System, t: TaskId, cfg: Settings)
    requires Coupled(s) && Able(s, CancelFlag(t))
    ensures Coupled(Next(s, CancelFlag(t), cfg))
  {
    assert RowOk(s, t);
    OneTaskStep(s, Next(s, CancelFlag(t), cfg), t, None);
  }

  // ---------------------------------------------------------------- every step, every run

  lemma StepKeepsCoupling(s: System, step: SystemStep, cfg: Settings)
    requires Coupled(s) && Able(s, step)
    ensures Coupled(Next(s, step, cfg))
  {
    match step
    case Wait(to) => ClockOrNewRowKeepsCoupling(s, Next(s, step, cfg), 0);
    case Create(t, _) => ClockOrNewRowKeepsCoupling(s, Next(s, step, cfg), t);
    case StartCheck(o, t) => OpKeepsCoupling(s, step, o, t, cfg);
    case StartWrite(o, t) => OpKeepsCoupling(s, step, o, t, cfg);
    case StartEnqueue(o, t) => OpKeepsCoupling(s, step, o, t, cfg);
    case CancelRead(o, t) => OpKeepsCoupling(s, step, o, t, cfg);
    case CancelEnqueued(o, t) => OpKeepsCoupling(s, step, o, t, cfg);
    case CancelWrite(o, t) => OpKeepsCoupling(s, step, o, t, cfg);
    case CancelFlag(t) => FlagKeepsCoupling(s, t, cfg);
    case Approve(t) => StatusKeepsCoupling(s, t, Completed);
    case Permit(t) => StatusKeepsCoupling(s, t, Running);
    case Deny(t) => StatusKeepsCoupling(s, t, Failed);
    case Sweep(only) => SweepKeepsCoupling(s, only);
    case Purge(cutoff) => PurgeKeepsCoupling(s, cutoff);
    case Extend(t, owner) => RenewKeepsCoupling(s, t, owner, cfg.leaseSeconds);
    case Spawn(w) => SpawnKeepsCoupling(s, w);
    case Take(w, pick) => TakeKeepsCoupling(s, w, pick, cfg);
    case Begin(w) => BeginKeepsCoupling(s, w, cfg);
    case Write(w, status, stage, progress) =>
      if s.workers[w].t in s.store.tasks { RowWriteKeepsCoupling(s, Next(s, step, cfg), s.workers[w].t); }
    case Finish(w) => PcKeepsCoupling(s, Next(s, step, cfg), w);
    case Read(w) => PcKeepsCoupling(s, Next(s, step, cfg), w);
    case Settle(w) => SettleKeepsCoupling(s, w, cfg);
    case HandlerWrite(_, t, _) => HandlerWriteKeepsCoupling(s, step, cfg);
    case HandlerEnd(r, t, outcome) => assert RowOk(s, t); EndKeepsCoupling(s, t, RunnerOwner(r), outcome);
    case HandlerFail(r, t) => assert RowOk(s, t); FailKeepsCoupling(s, t, RunnerOwner(r), cfg.retryBase);
    case HandlerAsk(request, t) => ClockOrNewRowKeepsCoupling(s, Next(s, step, cfg), t);
    case AssignLease(o, r, pick) => LeaseKeepsCoupling(s, o, r, pick, cfg);
    case AssignWrite(o, t) => OpKeepsCoupling(s, step, o, t, cfg);
  }

  lemma HandlerWriteKeepsCoupling(s: System, step: SystemStep, cfg: Settings)
    requires Coupled(s) && step.HandlerWrite? && Able(s, step)
    ensures Coupled(Next(s, step, cfg))
  {
    if step.t in s.store.tasks && s.store.tasks[step.t].runner == Some(step.r) {
      RowWriteKeepsCoupling(s, Next(s, step, cfg), step.t);
    }
  }

  lemma ClockOrNewRowKeepsCoupling(s: System, s': System, t: TaskId)
    requires Coupled(s) && s'.workers == s.workers && s'.ops == s.ops && s'.store.jobs == s.store.jobs
    requires s'.store.tasks == s.store.tasks
             || (t !in s.store.jobs && t in s'.store.tasks && s'.store.tasks[t].status == Draft
                 && s'.store.tasks == s.store.tasks[t := s'.store.tasks[t]])
    ensures Coupled(s')
  {
    forall u: TaskId ensures RowOk(s', u) {
      assert RowOk(s, u);
    }
  }

  lemma {:induction false} RunKeepsCoupling(s: System, steps: seq<SystemStep>, cfg: Settings)
    requires Coupled(s) && AbleAll(s, steps, cfg)
    ensures Coupled(NextAll(s, steps, cfg))
    decreases |steps|
  {
    if steps != [] {
      StepKeepsCoupling(s, steps[0], cfg);
      RunKeepsCoupling(Next(s, steps[0], cfg), steps[1..], cfg);
    }
  }

  /** Empty tables, no worker and no operation under way. */
  function Empty(start: int): System {
    System(Store(start, map[], map[], map[], map[]), map[], map[])
  }

  /**
   * Over every run from empty tables: a queued task has a job row of its own target that is pending or leased, or a
   * start, a cancellation or an assignment of it is between its two writes, or died there.
   */
  lemma QueuedTaskHasLiveJob(steps: seq<SystemStep>, cfg: Settings, start: int, t: TaskId)
    requires AbleAll(Empty(start), steps, cfg)
    ensures var s := NextAll(Empty(start), steps, cfg);
            IsQueued(s.store, t) ==>
              Caught(s.ops, t) || (Live(s.store, t) && s.store.jobs[t].target == TargetOf(s.store.tasks[t]))
  {
    assert Coupled(Empty(start));
    RunKeepsCoupling(Empty(start), steps, cfg);
    assert RowOk(NextAll(Empty(start), steps, cfg), t);
  }

  predicate Stranded(s: Store, t: TaskId) {
    IsQueued(s, t) && !Live(s, t)
  }

  /** A start that dies between its two writes leaves a queued task without a job. */
  lemma DeadStartStrandsTask(cfg: Settings, start: int, t: TaskId)
    ensures var steps := [Create(t, None), StartCheck(0, t), StartWrite(0, t)];
            && AbleAll(Empty(start), steps, cfg) && Stranded(NextAll(Empty(start), steps, cfg).store, t)
            && IsAt(NextAll(Empty(start), steps, cfg), 0, Queueing(t))
  {
    var a := Next(Empty(start), Create(t, None), cfg);
    var b := Next(a, StartCheck(0, t), cfg);
    var c := Next(b, StartWrite(0, t), cfg);
    ThreeSteps(Empty(start), Create(t, None), a, StartCheck(0, t), b, StartWrite(0, t), c, cfg);
  }

  function QueueAndCancel(t: TaskId): seq<SystemStep> {
    [StartEnqueue(0, t), CancelRead(0, t), CancelEnqueued(0, t)]
  }

  lemma QueueAndCancelStrands(s: System, t: TaskId, cfg: Settings)
    requires IsAt(s, 0, Queueing(t)) && IsQueued(s.store, t)
    ensures AbleAll(s, QueueAndCancel(t), cfg) && Stranded(NextAll(s, QueueAndCancel(t), cfg).store, t)
  {
    var s1 := Next(s, StartEnqueue(0, t), cfg);
    var s2 := Next(s1, CancelRead(0, t), cfg);
    var s3 := Next(s2, CancelEnqueued(0, t), cfg);
    ThreeSteps(s, StartEnqueue(0, t), s1, CancelRead(0, t), s2, CancelEnqueued(0, t), s3, cfg);
  }

  /** So does a cancellation that dies between cancelling the job and writing the task. */
  lemma DeadCancellationStrandsTask(cfg: Settings, start: int, t: TaskId)
    ensures var steps := [Create(t, None), StartCheck(0, t), StartWrite(0, t)] + QueueAndCancel(t);
            AbleAll(Empty(start), steps, cfg) && Stranded(NextAll(Empty(start), steps, cfg).store, t)
  {
    DeadStartStrandsTask(cfg, start, t);
    var steps := [Create(t, None), StartCheck(0, t), StartWrite(0, t)];
    var s := NextAll(Empty(start), steps, cfg);
    QueueAndCancelStrands(s, t, cfg);
    RunsOn(Empty(start), steps, s, QueueAndCancel(t), NextAll(s, QueueAndCancel(t), cfg), cfg);
  }

  // ---------------------------------------------------------------- gateway handlers

  /** The storage calls of the handler of a new message. */
  ghost function HandlerSteps(s: Store, e: Envelope, r: RunnerId, active: Option<TaskId>): seq<SystemStep> {
    var me := RunnerOwner(r);
    if e.mtype == Heartbeat then if active.Some? && e.payload.busy then [Extend(active.value, me)] else []
    else if e.taskId.None? then []
    else
      var t, row := e.taskId.value, Gateway.Row(s.tasks, e.taskId.value);
      match e.mtype
      case TaskAccepted => [Extend(t, me), HandlerWrite(r, t, row.(status := Accepted))]
      case TaskProgress =>
        [Extend(t, me)] + if e.payload.persisted then [] else [HandlerWrite(r, t, Gateway.ProgressRow(row, e.payload))]
      case PermissionRequest =>
        [HandlerWrite(r, t, row.(status := WaitPermission)), HandlerAsk(e.payload.request, t)]
      case TaskCompleted =>
        if e.payload.persisted then []
        else [HandlerWrite(r, t, row.(status := WaitingApproval, progress := 100)), HandlerEnd(r, t, Done)]
      case TaskFailed =>
        if e.payload.persisted then [] else [HandlerWrite(r, t, row.(status := Failed)), HandlerFail(r, t)]
      case TaskCancelled =>
        if e.payload.persisted then []
        else [HandlerWrite(r, t, row.(status := Cancelled)), HandlerEnd(r, t, JobCancelled)]
      case _ => []
  }

  /** Two calls of a handler, the first a renewal or a write. */
  lemma TwoCalls(s: System, a: SystemStep, b: SystemStep, end: Store, cfg: Settings)
    requires Able(s, a) && (a.Extend? || a.HandlerWrite?)
    requires var s1 := Next(s, a, cfg); Able(s1, b) && Next(s1, b, cfg) == s.(store := end)
    ensures AbleAll(s, [a, b], cfg) && NextAll(s, [a, b], cfg) == s.(store := end)
  {
    TwoSteps(s, a, Next(s, a, cfg), b, s.(store := end), cfg);
  }

  predicate IsOutcome(t: MessageType) {
    t == TaskCompleted || t == TaskFailed || t == TaskCancelled
  }

  lemma OutcomeIsHandlerSteps(s: System, e: Envelope, r: RunnerId, cfg: Settings, active: Option<TaskId>)
    requires IsOutcome(e.mtype)
    ensures var steps := HandlerSteps(s.store, e, r, active);
            AbleAll(s, steps, cfg)
            && NextAll(s, steps, cfg) == s.(store := Gateway.Effect(s.store, e, r, cfg, active))
  {
    var steps, end := HandlerSteps(s.store, e, r, active), Gateway.Effect(s.store, e, r, cfg, active);
    if e.taskId.None? || e.payload.persisted {
      assert steps == [] && s.(store := end) == s;
    } else {
      TwoCalls(s, steps[0], steps[1], end, cfg);
      assert steps == [steps[0], steps[1]];
    }
  }

  lemma ProgressIsHandlerSteps(s: System, e: Envelope, r: RunnerId, cfg: Settings, active: Option<TaskId>)
    requires (e.mtype == TaskAccepted || e.mtype == TaskProgress) && e.taskId.Some?
    ensures var steps := HandlerSteps(s.store, e, r, active);
            AbleAll(s, steps, cfg)
            && NextAll(s, steps, cfg) == s.(store := Gateway.Effect(s.store, e, r, cfg, active))
  {
    var steps, end := HandlerSteps(s.store, e, r, active), Gateway.Effect(s.store, e, r, cfg, active);
    if |steps| == 2 {
      TwoCalls(s, steps[0], steps[1], end, cfg);
      assert steps == [steps[0], steps[1]];
    } else {
      OneStep(s, steps[0], s.(store := end), cfg);
      assert steps == [steps[0]];
    }
  }

  /** Undisturbed, these calls have the effect of the message. */
  lemma EffectIsHandlerSteps(s: System, e: Envelope, r: RunnerId, cfg: Settings, active: Option<TaskId>)
    ensures var steps := HandlerSteps(s.store, e, r, active);
            AbleAll(s, steps, cfg)
            && NextAll(s, steps, cfg) == s.(store := Gateway.Effect(s.store, e, r, cfg, active))
  {
    var steps, end := HandlerSteps(s.store, e, r, active), Gateway.Effect(s.store, e, r, cfg, active);
    if IsOutcome(e.mtype) {
      OutcomeIsHandlerSteps(s, e, r, cfg, active);
    } else if (e.mtype == TaskAccepted || e.mtype == TaskProgress) && e.taskId.Some? {
      ProgressIsHandlerSteps(s, e, r, cfg, active);
    } else if |steps| == 2 {
      TwoCalls(s, steps[0], steps[1], end, cfg);
      assert steps == [steps[0], steps[1]];
    } else if |steps| == 1 {
      OneStep(s, steps[0], s.(store := end), cfg);
      assert steps == [steps[0]];
    } else {
      assert steps == [] && s.(store := end) == s;
    }
  }

  /** So late messages of a runner keep the coupling, whatever other steps come between the calls. */
  lemma DeliverKeepsCoupling(s: System, e: Envelope, r: RunnerId, cfg: Settings, active: Option<TaskId>)
    requires Coupled(s)
    ensures Coupled(s.(store := Gateway.Effect(s.store, e, r, cfg, active)))
  {
    EffectIsHandlerSteps(s, e, r, cfg, active);
    RunKeepsCoupling(s, HandlerSteps(s.store, e, r, active), cfg);
  }

  // ---------------------------------------------------------------- whole operations, undisturbed

  /** start, when nothing comes between its steps. */
  lemma UndisturbedStart(s: System, o: nat, t: TaskId, cfg: Settings)
    requires o !in s.ops && CanStart(s.store, t)
    ensures var steps := [StartCheck(o, t), StartWrite(o, t), StartEnqueue(o, t)];
            AbleAll(s, steps, cfg)
            && NextAll(s, steps, cfg) == s.(store := StartTask(s.store, t, cfg.maxAttempts))
  {
    var s1 := Next(s, StartCheck(o, t), cfg);
    var s2 := Next(s1, StartWrite(o, t), cfg);
    var s3 := Next(s2, StartEnqueue(o, t), cfg);
    assert s3.ops == s.ops;
    ThreeSteps(s, StartCheck(o, t), s1, StartWrite(o, t), s2, StartEnqueue(o, t), s3, cfg);
  }

  /** cancel of a queued task. */
  lemma UndisturbedCancellation(s: System, o: nat, t: TaskId, cfg: Settings)
    requires o !in s.ops && IsQueued(s.store, t)
    ensures var steps := [CancelRead(o, t), CancelEnqueued(o, t), CancelWrite(o, t)];
            AbleAll(s, steps, cfg) && NextAll(s, steps, cfg) == s.(store := Tables.CancelTask(s.store, t))
  {
    var s1 := Next(s, CancelRead(o, t), cfg);
    var s2 := Next(s1, CancelEnqueued(o, t), cfg);
    var s3 := Next(s2, CancelWrite(o, t), cfg);
    assert s3.ops == s.ops;
    ThreeSteps(s, CancelRead(o, t), s1, CancelEnqueued(o, t), s2, CancelWrite(o, t), s3, cfg);
  }

  lemma DispatchTables(g: Gateway.ServerSide, r: RunnerId, cfg: Settings, c: Gateway.Choice)
    requires Gateway.Possible(Gateway.Sweep(g, r).store, r, c) && c.active.None?
    ensures var target, swept := RunnerTarget(r), RecoverExpired(g.store, Some(RunnerTarget(r)));
            && IsClaim(RecoverExpired(swept, Some(target)), target, c.claim)
            && Gateway.Dispatch(g, r, cfg, c).s.store ==
               var leased := LeaseJob(swept, target, RunnerOwner(r), cfg.leaseSeconds, c.claim);
               if c.claim.Some? then SetStatus(leased, c.claim.value, Assigned) else leased
  {
    Gateway.DecisionsFrame(Gateway.Sweep(g, r));
  }

  function AssignSteps(o: nat, r: RunnerId, claim: Option<TaskId>): seq<SystemStep> {
    [AssignLease(o, r, claim)] + if claim.Some? then [AssignWrite(o, claim.value)] else []
  }

  /** A lease for a runner and its assignment, on swept tables. */
  lemma AssignIsSteps(s: System, end: System, o: nat, r: RunnerId, claim: Option<TaskId>, cfg: Settings)
    requires Able(s, AssignLease(o, r, claim)) && (claim.Some? ==> claim.value in s.store.tasks)
    requires var leased := LeaseJob(s.store, RunnerTarget(r), RunnerOwner(r), cfg.leaseSeconds, claim);
             end == s.(store := if claim.Some? then SetStatus(leased, claim.value, Assigned) else leased)
    ensures AbleAll(s, AssignSteps(o, r, claim), cfg) && NextAll(s, AssignSteps(o, r, claim), cfg) == end
  {
    var s1 := Next(s, AssignLease(o, r, claim), cfg);
    if claim.Some? {
      var s2 := Next(s1, AssignWrite(o, claim.value), cfg);
      assert s2.ops == s.ops;
      TwoSteps(s, AssignLease(o, r, claim), s1, AssignWrite(o, claim.value), s2, cfg);
    } else {
      OneStep(s, AssignLease(o, r, claim), s1, cfg);
      assert AssignSteps(o, r, claim) == [AssignLease(o, r, claim)];
    }
  }

  /** What a pass of the gateway's dispatch does to the tables without an active task: a sweep, a lease, a write. */
  lemma DispatchIsSweepAndAssign(
      g: Gateway.ServerSide, s: System, o: nat, r: RunnerId, cfg: Settings, c: Gateway.Choice)
    requires Gateway.Possible(Gateway.Sweep(g, r).store, r, c) && c.active.None?
    requires s.store == g.store && o !in s.ops && forall t | t in s.store.jobs :: t in s.store.tasks
    ensures var steps := [Sweep(Some(RunnerTarget(r)))] + AssignSteps(o, r, c.claim);
            AbleAll(s, steps, cfg)
            && NextAll(s, steps, cfg) == s.(store := Gateway.Dispatch(g, r, cfg, c).s.store)
  {
    DispatchTables(g, r, cfg, c);
    var swept, end := s.(store := RecoverExpired(s.store, Some(RunnerTarget(r)))),
                      s.(store := Gateway.Dispatch(g, r, cfg, c).s.store);
    AssignIsSteps(swept, end, o, r, c.claim, cfg);
    OneStep(s, Sweep(Some(RunnerTarget(r))), swept, cfg);
    RunsOn(s, [Sweep(Some(RunnerTarget(r)))], swept, AssignSteps(o, r, c.claim), end, cfg);
  }

  // ---------------------------------------------------------------- what queueing does to the holder of the job

  /** Nobody who held the job of t before holds it after; at most `heir` does. */
  predicate Released(before: Store, after: Store, t: TaskId, heir: Option<Owner>) {
    && t in after.jobs
    && ((after.jobs[t].status == Pending && after.jobs[t].owner == None) || (heir.Some? && after.jobs[t].owner == heir))
    && (t in before.jobs && before.jobs[t].owner.Some? ==> after.jobs[t].owner != before.jobs[t].owner)
  }

  lemma TakeReleases(s: System, w: nat, pick: Option<TaskId>, cfg: Settings, t: TaskId)
    requires RowOk(s, t) && Able(s, Take(w, pick))
    requires !IsQueued(s.store, t) && IsQueued(Next(s, Take(w, pick), cfg).store, t)
    ensures Released(s.store, Next(s, Take(w, pick), cfg).store, t, Some(WorkerThread(w)))
  {
  }

  lemma LeaseReleases(s: System, o: nat, r: RunnerId, pick: Option<TaskId>, cfg: Settings, t: TaskId)
    requires RowOk(s, t) && Able(s, AssignLease(o, r, pick))
    requires !IsQueued(s.store, t) && IsQueued(Next(s, AssignLease(o, r, pick), cfg).store, t) && pick != Some(t)
    ensures Released(s.store, Next(s, AssignLease(o, r, pick), cfg).store, t, None)
  {
  }

  lemma FailReleases(s: Store, u: TaskId, owner: Owner, retryBase: int, t: TaskId)
    requires !IsQueued(s, t) && IsQueued(FailJob(s, u, owner, retryBase), t)
    ensures u == t && Owns(s, t, owner) && Released(s, FailJob(s, u, owner, retryBase), t, None)
  {
  }

  /**
   * Whatever step puts a task into the queue takes its job away from whoever held it: the job is then pending, or it
   * was handed straight to the idle worker whose claim did the recovery. A start does so in two steps: its first write
   * opens the gap, its second releases the job. A gateway whose claim does the recovery opens the gap, and has the job.
   */
  lemma QueueingReleasesJob(s: System, step: SystemStep, cfg: Settings, t: TaskId)
    requires Coupled(s) && Able(s, step)
    requires (!IsQueued(s.store, t) && IsQueued(Next(s, step, cfg).store, t)) || (step.StartEnqueue? && step.t == t)
    ensures var s' := Next(s, step, cfg);
            if step.StartWrite? then Caught(s'.ops, t)
            else if step.AssignLease? && step.pick == Some(t) then
              Caught(s'.ops, t) && Owns(s'.store, t, RunnerOwner(step.r))
            else Released(s.store, s'.store, t, if step.Take? then Some(WorkerThread(step.w)) else None)
  {
    assert RowOk(s, t);
    match step
    case Take(w, pick) => TakeReleases(s, w, pick, cfg, t);
    case AssignLease(o, r, pick) =>
      if pick != Some(t) {
        LeaseReleases(s, o, r, pick, cfg, t);
      } else {
        assert Next(s, step, cfg).ops[o] == Assigning(t);
      }
    case Settle(w) => FailReleases(s.store, s.workers[w].t, WorkerThread(w), cfg.retryBase, t);
    case HandlerFail(r, u) => FailReleases(s.store, u, RunnerOwner(r), cfg.retryBase, t);
    case StartWrite(o, u) => assert Next(s, step, cfg).ops[o] == Queueing(u);
    case Sweep(_) =>
    case StartEnqueue(_, _) =>
    case _ => assert false;
  }

  /**
   * A worker that finishes late cannot end the job of a task that has been queued again meanwhile, unless it hits the
   * gap of a start or cancellation: then it may still hold the job.
   */
  lemma LateWorkerLeavesQueuedTask(s: System, w: nat, cfg: Settings)
    requires Coupled(s) && Able(s, Settle(w)) && IsQueued(s.store, s.workers[w].t)
    ensures Next(s, Settle(w), cfg).store == s.store
            || (Caught(s.ops, s.workers[w].t) && Owns(s.store, s.workers[w].t, WorkerThread(w)))
  {
    assert RowOk(s, s.workers[w].t);
  }

  /** The time from which the job can be claimed if nothing else happens to it. */
  function ClaimableFrom(j: Job): int {
    Max(j.availableAt, if j.expiresAt.Some? then j.expiresAt.value else j.availableAt)
  }

  /**
   * No task that waits is stranded: once its delay and any lease on it have run out, its target's claim query sees it.
   * A queued task that is caught in a gap is stranded exactly as long as it has no live job.
   */
  lemma QueuedTaskBecomesClaimable(s: System, t: TaskId, at: int)
    requires Coupled(s) && IsQueued(s.store, t)
    ensures Live(s.store, t) || Caught(s.ops, t)
    ensures t in s.store.jobs && at >= ClaimableFrom(s.store.jobs[t]) ==>
              var target := TargetOf(s.store.tasks[t]);
              Eligible(RecoverExpired(s.store.(now := at), Some(target)), target, t) <==> Live(s.store, t)
  {
    assert RowOk(s, t);
  }

  // ---------------------------------------------------------------- cancellation survives everything but a new start

  predicate Flagged(s: Store, t: TaskId) {
    t in s.tasks && s.tasks[t].cancelRequested
  }

  lemma FailKeepsFlag(s: Store, u: TaskId, owner: Owner, retryBase: int, t: TaskId)
    requires Flagged(s, t)
    ensures Flagged(FailJob(s, u, owner, retryBase), t)
  {
  }

  lemma LeaseKeepsFlag(s: Store, target: Target, owner: Owner, leaseSeconds: int, pick: Option<TaskId>, t: TaskId)
    requires IsClaim(RecoverExpired(s, Some(target)), target, pick) && Flagged(s, t)
    ensures Flagged(LeaseJob(s, target, owner, leaseSeconds, pick), t)
  {
  }

  lemma StepKeepsFlag(s: System, step: SystemStep, cfg: Settings, t: TaskId)
    requires Able(s, step) && !(step.StartWrite? && step.t == t) && Flagged(s.store, t)
    ensures Flagged(Next(s, step, cfg).store, t)
  {
    match step
    case HandlerFail(r, u) => FailKeepsFlag(s.store, u, RunnerOwner(r), cfg.retryBase, t);
    case Take(w, pick) => LeaseKeepsFlag(s.store, ServerTarget, WorkerThread(w), cfg.leaseSeconds, pick, t);
    case AssignLease(_, r, pick) =>
      LeaseKeepsFlag(s.store, RunnerTarget(r), RunnerOwner(r), cfg.leaseSeconds, pick, t);
    case Settle(w) => FailKeepsFlag(s.store, s.workers[w].t, WorkerThread(w), cfg.retryBase, t);
    case _ =>
  }

  /** Once cancellation is requested, every retry of the task still sees the request, until a user starts it again. */
  lemma {:induction false} CancelRequestIsSticky(s: System, steps: seq<SystemStep>, cfg: Settings, t: TaskId)
    requires AbleAll(s, steps, cfg) && Flagged(s.store, t)
    requires forall step | step in steps :: !(step.StartWrite? && step.t == t)
    ensures Flagged(NextAll(s, steps, cfg).store, t)
    decreases |steps|
  {
    if steps != [] {
      assert steps[0] in steps;
      StepKeepsFlag(s, steps[0], cfg, t);
      CancelRequestIsSticky(Next(s, steps[0], cfg), steps[1..], cfg, t);
    }
  }

  // ---------------------------------------------------------------- the steps as the code takes them

  /** The tables with one worker thread. */
  function Alone(store: Store, w: nat, pc: Pc): System {
    var workers: map<nat, Pc> := map[w := pc];
    System(store, workers, map[])
  }

  /** One thread of class DurableTaskWorker; every method is one step of the state machine on the shared tables. */
  class DurableTaskWorker {
    const storage: JobStorage.Storage
    const id: nat
    const cfg: Settings
    var pc: Pc

    constructor (storage: JobStorage.Storage, id: nat, cfg: Settings)
      ensures this.storage == storage && this.id == id && this.cfg == cfg && pc == Idle
    {
      this.storage, this.id, this.cfg, pc := storage, id, cfg, Idle;
    }

    /** The lease at the top of _run_loop. */
    method TakeJob(now: int) returns (pick: Option<TaskId>)
      requires pc == Idle
      modifies this, storage
      ensures IsClaim(RecoverExpired(old(storage.View(now)), Some(ServerTarget)), ServerTarget, pick)
      ensures var s := Alone(old(storage.View(now)), id, Idle);
              && Able(s, Take(id, pick))
              && Alone(storage.View(now), id, pc) == Next(s, Take(id, pick), cfg)
      ensures pc == (if pick.Some? then Holding(pick.value) else Idle)
      ensures pick.Some? ==>
                && pick.value in storage.jobs && storage.jobs[pick.value].status == Leased
                && storage.jobs[pick.value].owner == Some(WorkerThread(id))
    {
      pick := storage.Lease(now, ServerTarget, WorkerThread(id), cfg.leaseSeconds);
      if pick.Some? {
        pc := Holding(pick.value);
      }
    }

    /** _execute_job from the reading of the outcome on; the run itself and other processes' steps come before. */
    method ReadOutcome(now: int)
      requires pc.Finished? && pc.t in storage.tasks
      modifies this
      ensures var s := Alone(storage.View(now), id, old(pc));
              Able(s, Read(id)) && Alone(storage.View(now), id, pc) == Next(s, Read(id), cfg)
      ensures pc == Decided(old(pc).t, storage.tasks[old(pc).t].status)
    {
      pc := Decided(pc.t, storage.tasks[pc.t].status);
    }

    /** The storage call that follows from the status read. */
    method EndJob(now: int, t: TaskId, read: TaskStatus)
      modifies storage
      ensures storage.View(now) == SettleJob(old(storage.View(now)), id, t, read, cfg)
    {
      if read == Failed {
        var _ := storage.Fail(now, t, WorkerThread(id), cfg.retryBase);
      } else if read == Cancelled {
        storage.Complete(now, t, WorkerThread(id), JobCancelled);
      } else if read == WaitingApproval || read == Completed {
        storage.Complete(now, t, WorkerThread(id), Done);
      } else {
        var _ := storage.Fail(now, t, WorkerThread(id), cfg.retryBase);
      }
    }

    method SettleOutcome(now: int)
      requires pc.Decided?
      modifies this, storage
      ensures var s := Alone(old(storage.View(now)), id, old(pc));
              Able(s, Settle(id)) && Alone(storage.View(now), id, pc) == Next(s, Settle(id), cfg)
    {
      EndJob(now, pc.t, pc.read);
      pc := Idle;
    }

    /** One round of _renew_loop; false ends the loop. */
    method RenewLease(now: int, t: TaskId) returns (renewed: bool)
      modifies storage
      ensures storage.View(now) == RenewJob(old(storage.View(now)), t, WorkerThread(id), cfg.leaseSeconds)
      ensures renewed <==>
                && t in old(storage.jobs) && old(storage.jobs)[t].owner == Some(WorkerThread(id))
                && old(storage.jobs)[t].status == Leased
    {
      renewed := storage.Renew(now, t, WorkerThread(id), cfg.leaseSeconds);
    }
  }
}
