/**
 * What each end says of its own accord, over every run: when the server cancels and assigns tasks, and how the runner
 * answers.
 */
module ReconnectControl {
  import opened Common
  import opened Envelopes
  import opened RunnerTransport
  import opened Tables
  import opened MessageLog
  import opened Gateway
  import opened Reconnect
  import opened ReconnectDelivery
  import JobLaws
  import Mirror
  import QueuedTasks

  // ---------------------------------------------------------------- cancellations and assignments

  /** The tasks named by the messages of this type, in order. */
  function TasksOf(rows: seq<Envelope>, mtype: MessageType): seq<TaskId> {
    if rows == [] then []
    else
      var e := rows[|rows| - 1];
      TasksOf(rows[..|rows| - 1], mtype) + (if e.mtype == mtype && e.taskId.Some? then [e.taskId.value] else [])
  }

  lemma {:induction false} TasksOfAppend(a: seq<Envelope>, b: seq<Envelope>, mtype: MessageType)
    ensures TasksOf(a + b, mtype) == TasksOf(a, mtype) + TasksOf(b, mtype)
    decreases |b|
  {
    if b == [] {
      assert a + b == a;
    } else {
      var n := |b| - 1;
      assert (a + b)[..|a + b| - 1] == a + b[..n];
      TasksOfAppend(a, b[..n], mtype);
    }
  }

  lemma {:induction false} NoneOfType(rows: seq<Envelope>, mtype: MessageType)
    requires forall e | e in rows :: e.mtype != mtype
    ensures TasksOf(rows, mtype) == []
  {
    if rows != [] {
      assert rows[|rows| - 1] in rows;
      NoneOfType(rows[..|rows| - 1], mtype);
    }
  }

  /** What the server has logged in this step. */
  ghost function Fresh(w: World, step: Step): seq<Envelope>
    requires Enabled(w, step)
  {
    var rows := Next(w, step).s.serverLog;
    if |w.s.serverLog| <= |rows| then rows[|w.s.serverLog|..] else []
  }

  /** The runner works on the task, and the task's lease, if any, has not run out. */
  predicate WorksOn(s: Store, r: RunnerId, t: TaskId) {
    && t in s.tasks && s.tasks[t].runner == Some(r)
    && (s.tasks[t].status == Assigned || s.tasks[t].status == Accepted || s.tasks[t].status == Running
        || s.tasks[t].status == WaitPermission)
    && !JobLaws.RunOut(s, t, Some(RunnerTarget(r)))
  }

  /** The pass of the dispatch loop finds this task as the runner's active one. */
  predicate PassFinds(w: World, step: Step, t: TaskId) {
    step.ServerDispatch? && step.choice.active == Some(t)
  }

  predicate PassClaims(w: World, step: Step, t: TaskId) {
    step.ServerDispatch? && step.choice.active == None && step.choice.claim == Some(t)
  }

  lemma SweptRow(s: Store, r: RunnerId, t: TaskId)
    ensures var s' := RecoverExpired(s, Some(RunnerTarget(r)));
            && (t in s'.tasks <==> t in s.tasks)
            && (t in s.tasks ==> s'.tasks[t].cancelRequested == s.tasks[t].cancelRequested)
            && (IsActiveFor(s', r, t) <==> WorksOn(s, r, t))
  {
  }

  /** The task a pass finds is one the runner works on, and the oldest; it finds none only if there is none. */
  lemma PassFindsOldest(w: World, step: Step, t: TaskId)
    requires step.ServerDispatch? && Enabled(w, step)
    ensures PassFinds(w, step, t) ==> WorksOn(w.s.store, w.id, t)
    ensures WorksOn(w.s.store, w.id, t) ==>
              step.choice.active.Some? && step.choice.active.value in w.s.store.tasks
              && w.s.store.tasks[step.choice.active.value].createdAt <= w.s.store.tasks[t].createdAt
  {
    SweptRow(w.s.store, w.id, t);
    if step.choice.active.Some? { SweptRow(w.s.store, w.id, step.choice.active.value); }
  }

  /** The one control message of a pass, if any. */
  lemma ControlSays(s: ServerSide, r: RunnerId, cfg: Settings, c: Choice)
    requires Possible(s.store, r, c)
    ensures var m := Control(s, r, cfg, c);
            && TasksOf(m.out, CancelTask) ==
               (match c.active
                case Some(t) => if s.store.tasks[t].cancelRequested && t !in s.cancelSent then [t] else []
                case None => [])
            && TasksOf(m.out, TaskAssign) ==
               (if c.active.None? && c.claim.Some? then [c.claim.value] else [])
            && m.s.cancelSent == s.cancelSent + (set t | t in TasksOf(m.out, CancelTask))
  {
    var out := Control(s, r, cfg, c).out;
    if out != [] { assert out == [out[0]] && out[..0] == []; }
  }

  lemma DecisionsSayNothing(s: ServerSide)
    requires ServerOk(s)
    ensures TasksOf(SendDecisions(s).out, CancelTask) == [] && TasksOf(SendDecisions(s).out, TaskAssign) == []
    ensures SendDecisions(s).s.cancelSent == s.cancelSent && SendDecisions(s).s.store == s.store
  {
    DecisionsServe(s);
    DecisionsFrame(s);
    NoneOfType(SendDecisions(s).out, CancelTask);
    NoneOfType(SendDecisions(s).out, TaskAssign);
  }

  lemma DispatchSays(s: ServerSide, r: RunnerId, cfg: Settings, c: Choice)
    requires ServerOk(s) && Possible(Sweep(s, r).store, r, c)
    ensures var m, swept := Dispatch(s, r, cfg, c), Sweep(s, r).store;
            && TasksOf(m.out, CancelTask) ==
               (match c.active
                case Some(t) => if swept.tasks[t].cancelRequested && t !in s.cancelSent then [t] else []
                case None => [])
            && TasksOf(m.out, TaskAssign) ==
               (if c.active.None? && c.claim.Some? then [c.claim.value] else [])
            && m.s.cancelSent == s.cancelSent + (set t | t in TasksOf(m.out, CancelTask))
  {
    var swept := Sweep(s, r);
    DecisionsSayNothing(swept);
    var a := SendDecisions(swept);
    ControlSays(a.s, r, cfg, c);
    TasksOfAppend(a.out, Control(a.s, r, cfg, c).out, CancelTask);
    TasksOfAppend(a.out, Control(a.s, r, cfg, c).out, TaskAssign);
  }

  /** Whom the server has told of a cancellation since the session began. */
  ghost function Told(told: set<TaskId>, w: World, step: Step): set<TaskId>
    requires Enabled(w, step)
  {
    if step.Connect? then {} else told + (set t | t in TasksOf(Fresh(w, step), CancelTask))
  }

  /** The cancellation a step owes: a pass owes one to the active task it finds, if flagged and not yet told. */
  function CancellationDue(w: World, step: Step, told: set<TaskId>): seq<TaskId> {
    if step.ServerDispatch? && step.choice.active.Some? && step.choice.active.value in w.s.store.tasks
       && w.s.store.tasks[step.choice.active.value].cancelRequested && step.choice.active.value !in told
    then [step.choice.active.value] else []
  }

  /** The assignment it owes: a pass that finds no active task owes one to the job it claims. */
  function AssignmentDue(step: Step): seq<TaskId> {
    if step.ServerDispatch? && step.choice.active.None? && step.choice.claim.Some? then [step.choice.claim.value]
    else []
  }

  /** A step logs the cancellation and the assignment it owes, and no other. */
  ghost predicate SpeaksRightly(w: World, step: Step, told: set<TaskId>)
    requires Enabled(w, step)
  {
    && TasksOf(Fresh(w, step), CancelTask) == CancellationDue(w, step, told)
    && TasksOf(Fresh(w, step), TaskAssign) == AssignmentDue(step)
  }

  lemma FreshRows(w: World, step: Step, out: seq<Envelope>)
    requires Enabled(w, step) && Next(w, step).s.serverLog == w.s.serverLog + out
    ensures Fresh(w, step) == out
  {
  }

  lemma PassSpeaksRightly(w: World, step: Step)
    requires Delivers(w) && step.ServerDispatch? && Enabled(w, step)
    ensures SpeaksRightly(w, step, w.s.cancelSent) && Next(w, step).s.cancelSent == Told(w.s.cancelSent, w, step)
  {
    DispatchServes(w.s, w.id, w.cfg, step.choice);
    DispatchSays(w.s, w.id, w.cfg, step.choice);
    FreshRows(w, step, Dispatch(w.s, w.id, w.cfg, step.choice).out);
    if step.choice.active.Some? { SweptRow(w.s.store, w.id, step.choice.active.value); }
  }

  lemma HandlingAnswers(s: ServerSide, e: Envelope, r: RunnerId, cfg: Settings, active: Option<TaskId>)
    ensures var m := Handle(s, e, r, cfg, active);
            m.s.cancelSent == s.cancelSent && forall x | x in m.out :: x.mtype == Ack || x.mtype == HeartbeatAck
  {
  }

  /** Answers neither cancel nor assign. */
  lemma AnswersSayNothing(out: seq<Envelope>)
    requires forall x | x in out :: x.mtype == Ack || x.mtype == HeartbeatAck || x.mtype == RegisterAck
    ensures TasksOf(out, CancelTask) == [] && TasksOf(out, TaskAssign) == []
  {
    NoneOfType(out, CancelTask);
    NoneOfType(out, TaskAssign);
  }

  /** Nothing but answers has been added to the log. */
  predicate OnlyAnswers(before: seq<Envelope>, after: seq<Envelope>) {
    before <= after && forall x | x in after[|before|..] :: x.mtype == RegisterAck || x.mtype == Ack
  }

  lemma RegistrationAnswers(s: ServerSide, e: Envelope)
    requires ServerOk(s) && e.mtype == Register
    ensures OnRegister(s, e).s.cancelSent == s.cancelSent && OnlyAnswers(s.serverLog, OnRegister(s, e).s.serverLog)
  {
    RegisterServes(s, e);
  }

  lemma ReconnectAnswers(s: ServerSide, e: Envelope)
    requires ServerOk(s) && e.mtype == Reconnect
    ensures OnReconnect(s, e).s.cancelSent == s.cancelSent && OnlyAnswers(s.serverLog, OnReconnect(s, e).s.serverLog)
  {
    if e.payload.version < s.minVersion {
      RefusalServes(s, e);
    } else if s.known {
      ResumeServes(s, e);
    }
  }

  lemma GreetingAnswers(s: ServerSide, e: Envelope)
    requires ServerOk(s)
    ensures OnHello(s, e).s.cancelSent == s.cancelSent && OnlyAnswers(s.serverLog, OnHello(s, e).s.serverLog)
  {
    if e.mtype == Register {
      RegistrationAnswers(s, e);
    } else if e.mtype == Reconnect {
      ReconnectAnswers(s, e);
    }
  }

  lemma LostDecisionSaysNothing(w: World)
    requires Delivers(w) && Enabled(w, DecisionFails)
    ensures TasksOf(Fresh(w, DecisionFails), CancelTask) == [] && TasksOf(Fresh(w, DecisionFails), TaskAssign) == []
    ensures Next(w, DecisionFails).s.cancelSent == w.s.cancelSent
  {
    DecisionServes(w.s);
    DecisionFailsKeeps(w);
    FreshRows(w, DecisionFails, SendDecision(w.s).out);
    NoneOfType(Fresh(w, DecisionFails), CancelTask);
    NoneOfType(Fresh(w, DecisionFails), TaskAssign);
  }

  lemma OthersSayNothing(w: World, step: Step)
    requires Enabled(w, step) && !step.ServerDispatch? && !step.ServerReceive? && !step.DecisionFails?
    ensures TasksOf(Fresh(w, step), CancelTask) == [] && TasksOf(Fresh(w, step), TaskAssign) == []
    ensures Next(w, step).s.cancelSent == if step.Connect? then {} else w.s.cancelSent
  {
    FreshRows(w, step, []);
  }

  lemma ReceiptSaysNothing(w: World, step: Step)
    requires Delivers(w) && step.ServerReceive? && Enabled(w, step)
    ensures TasksOf(Fresh(w, step), CancelTask) == [] && TasksOf(Fresh(w, step), TaskAssign) == []
    ensures Next(w, step).s.cancelSent == w.s.cancelSent
  {
    var e := w.toServer[0];
    if w.s.session == Waiting {
      GreetingAnswers(w.s, e);
    } else {
      HandleServes(w.s, e, w.id, w.cfg, step.active);
      HandlingAnswers(w.s, e, w.id, w.cfg, step.active);
      FreshRows(w, step, Handle(w.s, e, w.id, w.cfg, step.active).out);
    }
    AnswersSayNothing(Fresh(w, step));
  }

  lemma StepSpeaksRightly(w: World, step: Step)
    requires Delivers(w) && Enabled(w, step)
    ensures SpeaksRightly(w, step, w.s.cancelSent) && Next(w, step).s.cancelSent == Told(w.s.cancelSent, w, step)
  {
    if step.ServerDispatch? {
      PassSpeaksRightly(w, step);
    } else if step.ServerReceive? {
      ReceiptSaysNothing(w, step);
    } else if step.DecisionFails? {
      LostDecisionSaysNothing(w);
    } else {
      OthersSayNothing(w, step);
    }
  }

  ghost predicate AllSpeakRightly(w: World, steps: seq<Step>, told: set<TaskId>)
    requires Runs(w, steps)
    decreases |steps|
  {
    steps == [] ||
    (SpeaksRightly(w, steps[0], told) && AllSpeakRightly(Next(w, steps[0]), steps[1..], Told(told, w, steps[0])))
  }

  lemma {:induction false} RunSpeaksRightly(w: World, steps: seq<Step>)
    requires Delivers(w) && Runs(w, steps)
    ensures AllSpeakRightly(w, steps, w.s.cancelSent)
    decreases |steps|
  {
    if steps != [] {
      StepSpeaksRightly(w, steps[0]);
      StepKeepsDelivery(w, steps[0]);
      RunSpeaksRightly(Next(w, steps[0]), steps[1..]);
    }
  }

  /**
   * Over every run: a cancellation is logged exactly by a pass that finds the runner's active task with the flag set,
   * once per session; an assignment exactly by a pass that finds no active task and claims a job.
   */
  lemma ControlIsRight(w0: World, steps: seq<Step>)
    requires Initial(w0) && Runs(w0, steps)
    ensures AllSpeakRightly(w0, steps, {})
  {
    InitialDelivers(w0);
    RunSpeaksRightly(w0, steps);
  }

  predicate Distinct(xs: seq<TaskId>) {
    forall i, j | 0 <= i < j < |xs| :: xs[i] != xs[j]
  }

  /** What one step within a session adds to the log and to what has been told. */
  lemma SessionStep(w: World, step: Step) returns (said: seq<Envelope>)
    requires Delivers(w) && Enabled(w, step) && !step.Connect?
    ensures Next(w, step).s.serverLog == w.s.serverLog + said && |TasksOf(said, CancelTask)| <= 1
    ensures forall t | t in TasksOf(said, CancelTask) :: t !in w.s.cancelSent && t in Next(w, step).s.cancelSent
    ensures w.s.cancelSent <= Next(w, step).s.cancelSent
  {
    StepSpeaksRightly(w, step);
    LogGrows(w, step);
    said := Fresh(w, step);
  }

  lemma RestOfLog(before: seq<Envelope>, said: seq<Envelope>, later: seq<Envelope>)
    requires before + said <= later
    ensures before <= later && later[|before|..] == said + later[|before + said|..]
  {
  }

  /** What a session tells of is distinct, and was not told before. */
  lemma {:induction false} SessionCancelsOnce(w: World, steps: seq<Step>, end: World)
    requires Delivers(w) && Runs(w, steps) && After(w, steps) == end && forall step | step in steps :: !step.Connect?
    ensures w.s.serverLog <= end.s.serverLog
    ensures var told := TasksOf(end.s.serverLog[|w.s.serverLog|..], CancelTask);
            Distinct(told) && (forall t | t in told :: t !in w.s.cancelSent)
    decreases |steps|
  {
    if steps != [] {
      assert steps[0] in steps;
      var said := SessionStep(w, steps[0]);
      StepKeepsDelivery(w, steps[0]);
      var w' := RunsUncons(w, steps, end);
      SessionCancelsOnce(w', steps[1..], end);
      RestOfLog(w.s.serverLog, said, end.s.serverLog);
      var rest := end.s.serverLog[|w'.s.serverLog|..];
      TasksOfAppend(said, rest, CancelTask);
      ToldFirst(TasksOf(said, CancelTask), TasksOf(rest, CancelTask), w.s.cancelSent, w'.s.cancelSent);
    }
  }

  lemma ToldFirst(a: seq<TaskId>, b: seq<TaskId>, before: set<TaskId>, after: set<TaskId>)
    requires |a| <= 1 && (forall t | t in a :: t !in before && t in after) && before <= after
    requires Distinct(b) && forall t | t in b :: t !in after
    ensures Distinct(a + b) && forall t | t in a + b :: t !in before
  {
    forall i, j | 0 <= i < j < |a + b| ensures (a + b)[i] != (a + b)[j] {
      assert (a + b)[j] == b[j - |a|];
      if i < |a| {
        assert a[i] in a && b[j - |a|] in b;
      } else {
        assert (a + b)[i] == b[i - |a|];
      }
    }
  }

  lemma LogGrows(w: World, step: Step)
    requires Delivers(w) && Enabled(w, step)
    ensures w.s.serverLog <= Next(w, step).s.serverLog
  {
    match step
    case ServerReceive(active) =>
      if w.s.session == Waiting {
        GreetingAnswers(w.s, w.toServer[0]);
      } else {
        HandleServes(w.s, w.toServer[0], w.id, w.cfg, active);
      }
    case ServerDispatch(c) => DispatchServes(w.s, w.id, w.cfg, c);
    case DecisionFails =>
      DecisionServes(w.s);
      DecisionFailsKeeps(w);
    case _ =>
  }

  // ---------------------------------------------------------------- the job behind an assignment

  lemma SweptAndLeased(s: Store, r: RunnerId, leaseSeconds: int, t: TaskId)
    requires var swept := RecoverExpired(s, Some(RunnerTarget(r)));
             IsClaim(RecoverExpired(swept, Some(RunnerTarget(r))), RunnerTarget(r), Some(t))
    ensures var swept := RecoverExpired(s, Some(RunnerTarget(r)));
            var after := LeaseJob(swept, RunnerTarget(r), RunnerOwner(r), leaseSeconds,
                                  Some(t));
            && t in s.jobs && s.jobs[t].target == RunnerTarget(r) && s.jobs[t].availableAt <= s.now
            && (s.jobs[t].status == Pending || JobLaws.RunOut(s, t, Some(RunnerTarget(r))))
            && t in after.jobs && after.jobs[t].status == Leased && after.jobs[t].owner == Some(RunnerOwner(r))
            && after.jobs[t].expiresAt == Some(s.now + leaseSeconds) && after.jobs[t].attempts == s.jobs[t].attempts + 1
            && (t in s.tasks ==> t in after.tasks)
  {
    var swept := RecoverExpired(s, Some(RunnerTarget(r)));
    JobLaws.RecoveryRequeues(s, Some(RunnerTarget(r)), t);
    JobLaws.LeaseClaims(swept, RunnerTarget(r), RunnerOwner(r), leaseSeconds, Some(t), t);
  }

  /**
   * The job a pass assigns was claimable once expired leases were taken back; it is then leased to the runner, one
   * attempt further, and its task is marked as assigned.
   */
  lemma AssignmentIsLeased(w: World, step: Step, t: TaskId)
    requires Delivers(w) && step.ServerDispatch? && Enabled(w, step) && t in AssignmentDue(step)
    ensures var before, after := w.s.store, Next(w, step).s.store;
            && t in before.jobs && before.jobs[t].target == RunnerTarget(w.id)
            && before.jobs[t].availableAt <= before.now
            && (before.jobs[t].status == Pending || JobLaws.RunOut(before, t, Some(RunnerTarget(w.id))))
            && t in after.jobs && after.jobs[t].status == Leased && after.jobs[t].owner == Some(RunnerOwner(w.id))
            && after.jobs[t].expiresAt == Some(before.now + w.cfg.leaseSeconds)
            && after.jobs[t].attempts == before.jobs[t].attempts + 1
            && (t in before.tasks ==> t in after.tasks && after.tasks[t].status == Assigned)
  {
    QueuedTasks.DispatchTables(w.s, w.id, w.cfg, step.choice);
    SweptAndLeased(w.s.store, w.id, w.cfg.leaseSeconds, t);
  }

  // ---------------------------------------------------------------- from the flag to the runner's cache

  /** The runner works on t alone. */
  predicate WorksOnlyOn(tasks: map<TaskId, TaskRow>, r: RunnerId, t: TaskId) {
    forall u | u in tasks && tasks[u].runner == Some(r)
               && tasks[u].status in {Assigned, Accepted, Running, WaitPermission} :: u == t
  }

  /**
   * A cancellation flag that the server has not told of in this session reaches the row the runner has cached: by the
   * next control message, and the handler of that message.
   */
  method CancellationArrives(now: int, g: RunnerGatewaySession, c: Mirror.RemoteStorage, t: TaskId)
    requires g.Valid() && t in c.taskCache
    requires t in g.storage.tasks && g.storage.tasks[t].runner == Some(g.runner)
    requires g.storage.tasks[t].status in {Assigned, Accepted, Running, WaitPermission}
    requires WorksOnlyOn(g.storage.tasks, g.runner, t) && g.storage.tasks[t].cancelRequested && t !in g.cancelSent
    modifies g, g.storage, g.toRunner, c
    ensures t in c.taskCache && c.taskCache[t].cancelRequested && t in g.cancelSent
  {
    var n := |g.websocket|;
    ghost var choice := g.SendControl(now);
    c.HandleProtocolMessage(g.websocket[n]);
  }
}
