/**
 * The runner's task cache (class RemoteStorage of app/runner.py) and the server's task row: the messages emitted for
 * local updates, applied by the gateway, keep status, stage and progress the same on both sides.
 */
module Mirror {
  import opened Common
  import opened Envelopes
  import opened Tables
  import Gateway

  /** The keyword fields of one update_task call that this model looks at. */
  datatype Update = Update(status: Option<TaskStatus>, stage: Option<Stage>, progress: Option<int>)

  function Apply(row: TaskRow, u: Update): TaskRow {
    row.(status := if u.status.Some? then u.status.value else row.status,
         stage := if u.stage.Some? then u.stage else row.stage,
         progress := if u.progress.Some? then u.progress.value else row.progress)
  }

  datatype Emission = Emission(mtype: MessageType, payload: Payload)

  /** _emit_task_update: an outcome hides the other fields; an update of the branch alone says nothing. */
  function Emitted(u: Update): Option<Emission> {
    if u.status == Some(WaitingApproval) then Some(Emission(TaskCompleted, EMPTY))
    else if u.status == Some(Failed) then Some(Emission(TaskFailed, EMPTY))
    else if u.status == Some(Cancelled) then Some(Emission(TaskCancelled, EMPTY))
    else if u.stage.Some? || u.progress.Some? || u.status == Some(Running) then
      var step := if u.stage.Some? then StageName(u.stage.value) else "running";
      Some(Emission(TaskProgress, EMPTY.(step := step, percent := u.progress)))
    else None
  }

  /** What an update hands to the message sender, if there is one. */
  function ToSend(connected: bool, t: TaskId, u: Update): seq<(TaskId, Emission)> {
    if connected && Emitted(u).Some? then [(t, Emitted(u).value)] else []
  }

  /** The server's tables after the gateway has handled what the update emits. */
  function Received(s: Store, t: TaskId, u: Update, r: RunnerId, cfg: Settings): Store {
    var m := Emitted(u);
    if m.None? then s else Gateway.Effect(s, Envelope(0, m.value.mtype, Some(t), m.value.payload), r, cfg, None)
  }

  predicate SamePlace(a: TaskRow, b: TaskRow) {
    a.stage == b.stage && a.progress == b.progress
  }

  predicate Mirrors(a: TaskRow, b: TaskRow) {
    a.status == b.status && SamePlace(a, b)
  }

  predicate Served(s: Store, t: TaskId, r: RunnerId) {
    t in s.tasks && s.tasks[t].runner == Some(r)
  }

  // ---------------------------------------------------------------- stage names

  /** Every stage survives the trip through its name, and the placeholder step is no stage. */
  lemma StageNamesRoundTrip(s: Stage)
    ensures ParseStage(StageName(s)) == Some(s)
    ensures StepStage(StageName(s)) == Some(s)
    ensures StepStage("running") == None
  {
    match s
    case Product =>
    case Planner =>
    case Reader =>
    case Design =>
    case Coder =>
    case Build =>
    case Test =>
    case Review =>
    case Acceptance =>
    case Delivery =>
  }

  /** The steps a runner may name that are no stages stand for stages of the server. */
  lemma RunnerStepsAreStages()
    ensures StepStage("clone") == StepStage("checkout") == Some(Reader) && StepStage("generate") == Some(Coder)
    ensures StepStage("commit") == StepStage("push") == Some(Delivery)
    ensures forall name :: StepStage(name).None? ==> ParseStage(name).None?
  {
  }

  // ---------------------------------------------------------------- one update

  /** The messages carry less than the updates; these updates lose nothing by it. */
  predicate Faithful(row: TaskRow, u: Update) {
    var after := Apply(row, u);
    if Emitted(u).None? then after.status == row.status
    else match Emitted(u).value.mtype
      case TaskCompleted => after.stage == row.stage && after.progress == 100
      case TaskProgress => after.status == Running
      case _ => SamePlace(after, row)
  }

  /** The handler of TaskFailed puts the job back for a retry. */
  predicate WillRetry(s: Store, t: TaskId, r: RunnerId, u: Update) {
    u.status == Some(Failed) && Owns(s, t, RunnerOwner(r)) && Retries(s.jobs[t])
  }

  lemma ProgressReceived(s: Store, t: TaskId, u: Update, r: RunnerId, cfg: Settings)
    requires Served(s, t, r) && Emitted(u).Some? && Emitted(u).value.mtype == TaskProgress
    ensures Served(Received(s, t, u, r, cfg), t, r)
    ensures var row, next := s.tasks[t], Received(s, t, u, r, cfg).tasks[t];
            next.status == Running && SamePlace(next, Apply(row, u))
  {
    if u.stage.Some? { StageNamesRoundTrip(u.stage.value); } else { StageNamesRoundTrip(Product); }
  }

  lemma OutcomeReceived(s: Store, t: TaskId, u: Update, r: RunnerId, cfg: Settings)
    requires Served(s, t, r) && Emitted(u).Some? && Emitted(u).value.mtype != TaskProgress
    ensures Served(Received(s, t, u, r, cfg), t, r)
    ensures var row, next := s.tasks[t], Received(s, t, u, r, cfg).tasks[t];
            && next.stage == row.stage
            && next.progress == (if u.status == Some(WaitingApproval) then 100 else row.progress)
            && next.status == if WillRetry(s, t, r, u) then Queued else u.status.value
  {
  }

  /**
   * Exactly the faithful updates keep the two sides equal. A failure the server retries leaves the row queued instead,
   * with stage and progress still equal whenever the update is faithful.
   */
  lemma UpdateIsMirrored(s: Store, t: TaskId, row: TaskRow, u: Update, r: RunnerId, cfg: Settings)
    requires Served(s, t, r) && Mirrors(row, s.tasks[t])
    ensures Served(Received(s, t, u, r, cfg), t, r)
    ensures !WillRetry(s, t, r, u) ==>
              (Mirrors(Apply(row, u), Received(s, t, u, r, cfg).tasks[t]) <==> Faithful(row, u))
    ensures WillRetry(s, t, r, u) ==>
              && Received(s, t, u, r, cfg).tasks[t].status == Queued
              && (SamePlace(Apply(row, u), Received(s, t, u, r, cfg).tasks[t]) <==> Faithful(row, u))
  {
    if Emitted(u).Some? {
      if Emitted(u).value.mtype == TaskProgress {
        ProgressReceived(s, t, u, r, cfg);
      } else {
        OutcomeReceived(s, t, u, r, cfg);
      }
    }
  }

  // ---------------------------------------------------------------- the updates of a workflow run

  const BEGIN: Update := Update(Some(Running), None, None)
  const BRANCH: Update := Update(None, None, None)
  const FINISH: Update := Update(Some(WaitingApproval), Some(Delivery), Some(100))
  const CANCEL: Update := Update(Some(Cancelled), None, None)
  const FAIL: Update := Update(Some(Failed), None, None)

  predicate IsEnter(u: Update) {
    u.status == Some(Running) && u.stage.Some? && u.progress.Some?
  }

  /** An update the workflow makes: it finishes only from the delivery stage, which it has just entered. */
  predicate WorkflowMakes(row: TaskRow, u: Update) {
    u == BEGIN || u == BRANCH || IsEnter(u) || (u == FINISH && row.stage == Some(Delivery)) || u == CANCEL || u == FAIL
  }

  /** A run starts by setting the status to running; nothing follows a failure. */
  predicate WorkflowRun(row: TaskRow, us: seq<Update>)
    decreases |us|
  {
    us == [] || (WorkflowMakes(row, us[0]) && (us[0] == FAIL ==> |us| == 1) && WorkflowRun(Apply(row, us[0]), us[1..]))
  }

  function CacheAfter(row: TaskRow, us: seq<Update>): TaskRow
    decreases |us|
  {
    if us == [] then row else CacheAfter(Apply(row, us[0]), us[1..])
  }

  /** The server handles the emitted messages in order, each new, with no lease expiry in between. */
  function ServerAfter(s: Store, t: TaskId, us: seq<Update>, r: RunnerId, cfg: Settings): Store
    decreases |us|
  {
    if us == [] then s else ServerAfter(Received(s, t, us[0], r, cfg), t, us[1..], r, cfg)
  }

  /** Equal, or equal up to the retry the server decided on. */
  predicate MirrorsOrRetries(cache: TaskRow, server: TaskRow) {
    Mirrors(cache, server) || (cache.status == Failed && server.status == Queued && SamePlace(cache, server))
  }

  lemma {:induction false} RunIsMirrored(s: Store, t: TaskId, row: TaskRow, us: seq<Update>, r: RunnerId, cfg: Settings)
    requires Served(s, t, r) && Mirrors(row, s.tasks[t]) && WorkflowRun(row, us)
    ensures Served(ServerAfter(s, t, us, r, cfg), t, r)
    ensures MirrorsOrRetries(CacheAfter(row, us), ServerAfter(s, t, us, r, cfg).tasks[t])
    decreases |us|
  {
    if us != [] {
      var u := us[0];
      assert Faithful(row, u);
      UpdateIsMirrored(s, t, row, u, r, cfg);
      if u == FAIL {
        assert us[1..] == [];
      } else {
        RunIsMirrored(Received(s, t, u, r, cfg), t, Apply(row, u), us[1..], r, cfg);
      }
    }
  }

  /**
   * From the assignment on: the runner caches the row it was sent and accepts the task, which the server alone notes
   * as a status. The first update of every run restores equality, and every later one keeps it.
   */
  lemma AssignedRunIsMirrored(s: Store, t: TaskId, row: TaskRow, us: seq<Update>, r: RunnerId, cfg: Settings)
    requires Served(s, t, r) && SamePlace(row, s.tasks[t])
    requires us != [] && us[0] == BEGIN && WorkflowRun(row, us)
    ensures Served(ServerAfter(s, t, us, r, cfg), t, r)
    ensures MirrorsOrRetries(CacheAfter(row, us), ServerAfter(s, t, us, r, cfg).tasks[t])
  {
    ProgressReceived(s, t, BEGIN, r, cfg);
    RunIsMirrored(Received(s, t, BEGIN, r, cfg), t, Apply(row, BEGIN), us[1..], r, cfg);
  }

  // ---------------------------------------------------------------- the class

  class RemoteStorage {
    /** Whether a message sender has been set. */
    var connected: bool
    var taskCache: map<TaskId, TaskRow>
    var sent: seq<(TaskId, Emission)>

    constructor ()
      ensures !connected && taskCache == map[] && sent == []
    {
      connected, taskCache, sent := false, map[], [];
    }

    method SetMessageSender()
      modifies `connected
      ensures connected
    {
      connected := true;
    }

    method CacheTask(t: TaskId, row: TaskRow)
      modifies `taskCache
      ensures taskCache == old(taskCache)[t := row]
    {
      taskCache := taskCache[t := row];
    }

    /**
     * update_task. A cached task is updated in the cache while a message sender is set; any other task by a REST
     * request, whose response is `patched`. No row stands for the RunnerConnectionError of a failed request.
     */
    method UpdateTask(t: TaskId, u: Update, patched: Option<TaskRow>) returns (row: Option<TaskRow>)
      modifies `taskCache, `sent
      ensures connected && t in old(taskCache) ==>
                row == Some(Apply(old(taskCache)[t], u)) && taskCache == old(taskCache)[t := row.value]
      ensures !(connected && t in old(taskCache)) ==> row == patched && taskCache == old(taskCache)
      ensures sent == old(sent) + if row.Some? then ToSend(connected, t, u) else []
    {
      if connected && t in taskCache {
        var task := taskCache[t];
        if u.status.Some? { task := task.(status := u.status.value); }
        if u.stage.Some? { task := task.(stage := u.stage); }
        if u.progress.Some? { task := task.(progress := u.progress.value); }
        taskCache := taskCache[t := task];
        EmitTaskUpdate(t, u);
        return Some(task);
      }
      if patched.None? {
        return None;
      }
      EmitTaskUpdate(t, u);
      return patched;
    }

    method EmitTaskUpdate(t: TaskId, u: Update)
      modifies `sent
      ensures sent == old(sent) + ToSend(connected, t, u)
    {
      if u.status == Some(WaitingApproval) {
        Emit(t, Emission(TaskCompleted, EMPTY));
        return;
      }
      if u.status == Some(TaskStatus.Failed) {
        Emit(t, Emission(TaskFailed, EMPTY));
        return;
      }
      if u.status == Some(TaskStatus.Cancelled) {
        Emit(t, Emission(TaskCancelled, EMPTY));
        return;
      }
      if u.stage.Some? || u.progress.Some? || u.status == Some(Running) {
        var step := "running";
        if u.stage.Some? { step := StageName(u.stage.value); }
        Emit(t, Emission(TaskProgress, EMPTY.(step := step, percent := u.progress)));
      }
    }

    method Emit(t: TaskId, m: Emission)
      modifies `sent
      ensures sent == old(sent) + if connected then [(t, m)] else []
    {
      if connected {
        sent := sent + [(t, m)];
      }
    }

    /** handle_protocol_message: a cancellation reaches the cached row, so the workflow's next check sees it. */
    method HandleProtocolMessage(e: Envelope)
      modifies `taskCache
      ensures taskCache ==
              if e.mtype == MessageType.CancelTask && e.taskId.Some? && e.taskId.value in old(taskCache)
              then old(taskCache)[e.taskId.value := old(taskCache)[e.taskId.value].(cancelRequested := true)]
              else old(taskCache)
    {
      if e.mtype == MessageType.CancelTask && e.taskId.Some? && e.taskId.value in taskCache {
        taskCache := taskCache[e.taskId.value := taskCache[e.taskId.value].(cancelRequested := true)];
      }
    }
  }
}
