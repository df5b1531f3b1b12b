/** The server's end of a runner connection: class RunnerGatewaySession of app/gateway.py. */
module Gateway {
  import opened Common
  import opened Envelopes
  import opened Tables
  import opened MessageLog
  import opened JobStorage

  /** The decision of a permission request. */
  datatype Decision = Decision(request: nat, task: TaskId, content: nat)

  datatype Session = Waiting | Live | Closed

  /**
   * The server as one runner sees it; `unsent` are the permission decisions not yet sent. History variables:
   * `begun` are the application messages whose handler has begun their effect, `dropped` those among them whose handler
   * failed before completing it, and `decided` are all decisions ever made.
   */
  datatype ServerSide = ServerSide(
    session: Session,
    cancelSent: set<TaskId>,
    minVersion: nat,
    known: bool,
    runnerLog: seq<Envelope>,
    serverLog: seq<Envelope>,
    store: Store,
    unsent: seq<Decision>,
    begun: seq<Envelope>,
    dropped: set<Envelope>,
    decided: seq<Decision>)

  datatype Reply = Reply(s: ServerSide, out: seq<Envelope>)

  // ---------------------------------------------------------------- effects of runner messages on the tables

  /** _update_task touches a task of this runner only. */
  function UpdateOwn(s: Store, r: RunnerId, t: TaskId, row: TaskRow): Store {
    if t in s.tasks && s.tasks[t].runner == Some(r) then s.(tasks := s.tasks[t := row]) else s
  }

  function Row(tasks: map<TaskId, TaskRow>, t: TaskId): TaskRow {
    if t in tasks then tasks[t] else TaskRow(Draft, None, None, 0, false, 0)
  }

  function ProgressRow(row: TaskRow, p: Payload): TaskRow {
    row.(status := Running,
         stage := if StepStage(p.step).Some? then StepStage(p.step) else row.stage,
         progress := if p.percent.Some? then p.percent.value else row.progress)
  }

  /** What the handler of a new message does to the task and job tables; `active` is the runner's active task. */
  function Effect(s: Store, e: Envelope, r: RunnerId, cfg: Settings, active: Option<TaskId>): Store {
    var me := RunnerOwner(r);
    if e.mtype == Heartbeat then
      if active.Some? && e.payload.busy then RenewJob(s, active.value, me, cfg.leaseSeconds) else s
    else if e.taskId.None? then s
    else
      var t := e.taskId.value;
      match e.mtype
      case TaskAccepted =>
        var s1 := RenewJob(s, t, me, cfg.leaseSeconds);
        UpdateOwn(s1, r, t, Row(s1.tasks, t).(status := Accepted))
      case TaskProgress =>
        var s1 := RenewJob(s, t, me, cfg.leaseSeconds);
        if e.payload.persisted then s1 else UpdateOwn(s1, r, t, ProgressRow(Row(s1.tasks, t), e.payload))
      case PermissionRequest =>
        AskPermission(UpdateOwn(s, r, t, Row(s.tasks, t).(status := WaitPermission)), e.payload.request, t)
      case TaskCompleted =>
        if e.payload.persisted then s
        else CompleteJob(UpdateOwn(s, r, t, Row(s.tasks, t).(status := WaitingApproval, progress := 100)), t, me, Done)
      case TaskFailed =>
        if e.payload.persisted then s
        else FailJob(UpdateOwn(s, r, t, Row(s.tasks, t).(status := Failed)), t, me, cfg.retryBase)
      case TaskCancelled =>
        if e.payload.persisted then s
        else CompleteJob(UpdateOwn(s, r, t, Row(s.tasks, t).(status := Cancelled)), t, me, JobCancelled)
      case _ => s
  }

  // ---------------------------------------------------------------- the session

  /** _send: number the message, log it, then put it on the wire. */
  ghost function Log(s: ServerSide, t: MessageType, task: Option<TaskId>, payload: Payload): Reply {
    var e := Envelope(MaxSeq(s.serverLog) + 1, t, task, payload);
    Reply(s.(serverLog := Insert(s.serverLog, e)), [e])
  }

  ghost function LogAck(s: ServerSide, e: Envelope): Reply {
    Log(s, Ack, e.taskId, EMPTY.(ackSeq := Some(e.num)))
  }

  ghost function Note(s: ServerSide, e: Envelope): ServerSide {
    s.(runnerLog := Insert(s.runnerLog, e))
  }

  ghost function OnRegister(s: ServerSide, e: Envelope): Reply {
    var s1 := Note(s, e);
    if e.payload.version < s.minVersion then
      var m := Log(s1, RegisterAck, None, EMPTY.(ackSeq := Some(e.num), accepted := false));
      Reply(m.s.(session := Closed), m.out)
    else
      Log(s1.(known := true, session := Live), RegisterAck, None, EMPTY.(ackSeq := Some(e.num), accepted := true))
  }

  /** A refused Reconnect is answered without being logged and without any replay. */
  ghost function OnReconnect(s: ServerSide, e: Envelope): Reply {
    if e.payload.version < s.minVersion then
      var m := Log(s, RegisterAck, None, EMPTY.(ackSeq := Some(e.num), accepted := false));
      Reply(m.s.(session := Closed), m.out)
    else if !s.known then Reply(s.(session := Closed), [])
    else
      var s1 := Note(s, e).(session := Live);
      var replay := ListAfter(s1.serverLog, e.payload.lastSeq);
      var m := Log(s1, Ack, e.taskId, EMPTY.(ackSeq := Some(e.num), reconnected := true));
      Reply(m.s, replay + m.out)
  }

  /** The first message of a session. */
  ghost function OnHello(s: ServerSide, e: Envelope): Reply {
    if e.mtype == Register then OnRegister(s, e)
    else if e.mtype == Reconnect then OnReconnect(s, e)
    else Reply(s.(session := Closed), [])
  }

  /** _handle: record first; an Ack is silent, a duplicate is only acknowledged, a new message runs its effect. */
  ghost function Handle(s: ServerSide, e: Envelope, r: RunnerId, cfg: Settings, active: Option<TaskId>): Reply {
    var s1 := Note(s, e);
    if e.mtype == Ack then Reply(s1, [])
    else if Recorded(s.runnerLog, e.num) then LogAck(s1, e)
    else
      var s2 := s1.(store := Effect(s1.store, e, r, cfg, active),
                   begun := if IsApplication(e.mtype) then s1.begun + [e] else s1.begun);
      if e.mtype == Heartbeat then Log(s2, HeartbeatAck, None, EMPTY.(ackSeq := Some(e.num))) else LogAck(s2, e)
  }

  /** The message's own number is new and its handler has an effect. */
  ghost predicate StartsEffect(s: ServerSide, e: Envelope) {
    IsApplication(e.mtype) && !Recorded(s.runnerLog, e.num)
  }

  /** The effect of a message has run to its end. */
  predicate HadEffect(s: ServerSide, e: Envelope) {
    e in s.begun && e !in s.dropped
  }

  /**
   * _handle fails after recording the message, before or after the end of its effect (`done`): the session ends, and
   * no answer has been logged.
   */
  ghost function FailToHandle(s: ServerSide, e: Envelope, r: RunnerId, cfg: Settings, active: Option<TaskId>,
                              done: bool): ServerSide {
    var s1 := Note(s, e).(session := Closed);
    if !StartsEffect(s, e) then s1
    else if done then s1.(store := Effect(s1.store, e, r, cfg, active), begun := s.begun + [e])
    else s1.(begun := s.begun + [e], dropped := s.dropped + {e})
  }

  function Firsts(xs: seq<Envelope>, n: nat): seq<Envelope> {
    if n <= |xs| then xs[..n] else xs
  }

  /**
   * The answer to a first message fails after the message is recorded: the runner may be known by then (`upserted`),
   * and some rows may have been replayed, but no answer has been logged. Before the record nothing has happened.
   */
  ghost function FailToAnswer(s: ServerSide, e: Envelope, upserted: bool, replayed: nat): Reply {
    var s1 := Note(s, e).(session := Closed);
    if e.mtype == Register then
      Reply(s1.(known := s.known || (upserted && e.payload.version >= s.minVersion)), [])
    else if e.mtype == Reconnect && e.payload.version >= s.minVersion && s.known then
      Reply(s1, Firsts(ListAfter(s.serverLog, e.payload.lastSeq), replayed))
    else Reply(s.(session := Closed), [])
  }

  function Verdict(d: Decision): Payload {
    EMPTY.(request := d.request, content := d.content)
  }

  /** A user decides a request; one that is missing or has been decided is refused. */
  ghost function Resolve(s: ServerSide, request: nat, content: nat): ServerSide {
    if IsOpen(s.store, request) then
      var d := Decision(request, s.store.requests[request].task, content);
      s.(store := ResolveRequest(s.store, request), unsent := s.unsent + [d], decided := s.decided + [d])
    else s
  }

  /** The first unsent permission decision goes out and is marked as sent. */
  ghost function SendDecision(s: ServerSide): Reply
    requires s.unsent != []
  {
    var d := s.unsent[0];
    var m := Log(s, PermissionResult, Some(d.task), Verdict(d));
    Reply(m.s.(unsent := s.unsent[1..]), m.out)
  }

  /** The send of a decision fails: it has been logged, it is not marked as sent, and the session ends. */
  ghost function LoseDecision(s: ServerSide): ServerSide
    requires s.unsent != []
  {
    SendDecision(s).s.(unsent := s.unsent, session := Closed)
  }

  /** Every unsent permission decision goes out once, in order, and is marked as sent. */
  ghost function SendDecisions(s: ServerSide): Reply
    decreases |s.unsent|
  {
    if s.unsent == [] then Reply(s, [])
    else
      var m := SendDecision(s);
      var rest := SendDecisions(m.s);
      Reply(rest.s, m.out + rest.out)
  }

  /** What one pass of _dispatch_control_messages finds: the active task and the claimed job. */
  datatype Choice = Choice(active: Option<TaskId>, claim: Option<TaskId>)

  /** recover_expired_jobs for the runner's target. */
  ghost function Sweep(s: ServerSide, r: RunnerId): ServerSide {
    s.(store := RecoverExpired(s.store, Some(RunnerTarget(r))))
  }

  ghost predicate Possible(store: Store, r: RunnerId, c: Choice) {
    && IsActivePick(store, r, c.active)
    && (c.active.None? ==> IsClaim(RecoverExpired(store, Some(RunnerTarget(r))), RunnerTarget(r), c.claim))
  }

  /** The message that follows the permission results: a cancellation for the active task, or a new assignment. */
  ghost function Control(s: ServerSide, r: RunnerId, cfg: Settings, c: Choice): Reply
    requires Possible(s.store, r, c)
  {
    if c.active.Some? then
      var t := c.active.value;
      if s.store.tasks[t].cancelRequested && t !in s.cancelSent then
        Log(s.(cancelSent := s.cancelSent + {t}), CancelTask, Some(t), EMPTY)
      else Reply(s, [])
    else
      var leased := LeaseJob(s.store, RunnerTarget(r), RunnerOwner(r), cfg.leaseSeconds, c.claim);
      if c.claim.None? then Reply(s.(store := leased), [])
      else
        var t := c.claim.value;
        Log(s.(store := SetStatus(leased, t, Assigned)), TaskAssign, Some(t), EMPTY.(task := t))
  }

  lemma {:induction false} DecisionsFrame(s: ServerSide)
    ensures SendDecisions(s).s == s.(serverLog := SendDecisions(s).s.serverLog, unsent := [])
    decreases |s.unsent|
  {
    if s.unsent != [] {
      DecisionsFrame(SendDecision(s).s);
    }
  }

  ghost function Dispatch(s: ServerSide, r: RunnerId, cfg: Settings, c: Choice): Reply
    requires Possible(Sweep(s, r).store, r, c)
  {
    DecisionsFrame(Sweep(s, r));
    var m := SendDecisions(Sweep(s, r));
    var k := Control(m.s, r, cfg, c);
    Reply(k.s, m.out + k.out)
  }

  lemma Regroup(a: seq<Envelope>, b: seq<Envelope>, c: seq<Envelope>)
    ensures a + (b + c) == a + b + c
  {
  }

  // ---------------------------------------------------------------- the class

  class RunnerGatewaySession {
    const storage: Storage
    const fromRunner: RunnerMessages
    const toRunner: RunnerMessages
    const runner: RunnerId
    const cfg: Settings
    const minVersion: nat
    var session: Session
    var cancelSent: set<TaskId>
    var known: bool
    var websocket: seq<Envelope>
    var unsent: seq<Decision>
    ghost var begun: seq<Envelope>
    ghost var dropped: set<Envelope>
    ghost var decided: seq<Decision>

    ghost function View(now: int): ServerSide
      reads this, storage, fromRunner, toRunner
    {
      ServerSide(session, cancelSent, minVersion, known, fromRunner.rows, toRunner.rows, storage.View(now), unsent,
                 begun, dropped, decided)
    }

    ghost predicate Valid()
      reads this
    {
      fromRunner != toRunner
    }

    constructor (storage: Storage, fromRunner: RunnerMessages, toRunner: RunnerMessages,
                 runner: RunnerId, cfg: Settings, minVersion: nat, known: bool)
      requires fromRunner != toRunner
      ensures Valid() && websocket == []
      ensures this.storage == storage && this.fromRunner == fromRunner && this.toRunner == toRunner
      ensures forall now :: View(now) == ServerSide(Waiting, {}, minVersion, known, fromRunner.rows, toRunner.rows,
                                                    storage.View(now), [], [], {}, [])
    {
      this.storage, this.fromRunner, this.toRunner := storage, fromRunner, toRunner;
      this.runner, this.cfg, this.minVersion, this.known := runner, cfg, minVersion, known;
      session, cancelSent, websocket, unsent, begun, dropped, decided := Waiting, {}, [], [], [], {}, [];
    }

    method SendMessage(now: int, t: MessageType, task: Option<TaskId>, payload: Payload)
      requires Valid()
      modifies this`websocket, toRunner
      ensures View(now) == Log(old(View(now)), t, task, payload).s
      ensures websocket == old(websocket) + Log(old(View(now)), t, task, payload).out
      ensures |websocket| == |old(websocket)| + 1
      ensures var e := websocket[|old(websocket)|];
              && e == Envelope(e.num, t, task, payload) && toRunner.rows == old(toRunner.rows) + [e]
              && forall i | 0 <= i < |old(toRunner.rows)| :: old(toRunner.rows)[i].num != e.num
    {
      var num := toRunner.NextSequence();
      var e := Envelope(num, t, task, payload);
      var _ := toRunner.Record(e);
      websocket := websocket + [e];
    }

    method RegisterRunner(now: int, e: Envelope)
      requires Valid()
      modifies this, fromRunner, toRunner
      ensures View(now) == OnRegister(old(View(now)), e).s
      ensures websocket == old(websocket) + OnRegister(old(View(now)), e).out
      ensures session == (if e.payload.version >= minVersion then Live else Closed)
      ensures known == (old(known) || e.payload.version >= minVersion)
      ensures |websocket| == |old(websocket)| + 1
      ensures var a := websocket[|old(websocket)|];
              && a.mtype == RegisterAck && a.payload.ackSeq == Some(e.num)
              && a.payload.accepted == (e.payload.version >= minVersion)
    {
      var _ := fromRunner.Record(e);
      if e.payload.version < minVersion {
        SendMessage(now, RegisterAck, None, EMPTY.(ackSeq := Some(e.num), accepted := false));
        session := Closed;
        return;
      }
      known, session := true, Live;
      SendMessage(now, RegisterAck, None, EMPTY.(ackSeq := Some(e.num), accepted := true));
    }

    /** An accepted Reconnect: record, replay, answer. */
    method ResumeRunner(now: int, e: Envelope)
      requires Valid() && e.payload.version >= minVersion && known
      modifies this`session, this`websocket, fromRunner, toRunner
      ensures View(now) == OnReconnect(old(View(now)), e).s && session == Live
      ensures websocket == old(websocket) + OnReconnect(old(View(now)), e).out
    {
      var _ := fromRunner.Record(e);
      session := Live;
      var pending := toRunner.List(e.payload.lastSeq);
      SendFirsts(pending, |pending|);
      SendMessage(now, Ack, e.taskId, EMPTY.(ackSeq := Some(e.num), reconnected := true));
    }

    method ReconnectRunner(now: int, e: Envelope)
      requires Valid()
      modifies this`session, this`websocket, fromRunner, toRunner
      ensures View(now) == OnReconnect(old(View(now)), e).s
      ensures websocket == old(websocket) + OnReconnect(old(View(now)), e).out
      ensures session == (if e.payload.version >= minVersion && known then Live else Closed)
      ensures e.payload.version < minVersion ==>
                && |websocket| == |old(websocket)| + 1 && websocket[|old(websocket)|].mtype == RegisterAck
                && !websocket[|old(websocket)|].payload.accepted && fromRunner.rows == old(fromRunner.rows)
      ensures e.payload.version >= minVersion && !known ==> websocket == old(websocket)
    {
      if e.payload.version < minVersion {
        SendMessage(now, RegisterAck, None, EMPTY.(ackSeq := Some(e.num), accepted := false));
        session := Closed;
      } else if !known {
        session := Closed;
      } else {
        ResumeRunner(now, e);
      }
    }

    /**
     * The answer to a first message fails before its last message is logged: `upserted` says whether a registration got
     * as far as the runner's row, `replayed` how many rows of a replay were sent.
     */
    method FailHello(now: int, e: Envelope, upserted: bool, replayed: nat)
      requires Valid()
      modifies this`session, this`known, this`websocket, fromRunner
      ensures View(now) == FailToAnswer(old(View(now)), e, upserted, replayed).s
      ensures websocket == old(websocket) + FailToAnswer(old(View(now)), e, upserted, replayed).out
    {
      session := Closed;
      if e.mtype == Register {
        var _ := fromRunner.Record(e);
        known := known || (upserted && e.payload.version >= minVersion);
      } else if e.mtype == Reconnect && e.payload.version >= minVersion && known {
        var _ := fromRunner.Record(e);
        var pending := toRunner.List(e.payload.lastSeq);
        SendFirsts(pending, replayed);
      }
    }

    /** The replay loop, which may be cut off after n rows. */
    method SendFirsts(pending: seq<Envelope>, n: nat)
      modifies this`websocket
      ensures websocket == old(websocket) + Firsts(pending, n)
    {
      var i := 0;
      while i < |pending| && i < n
        invariant 0 <= i <= |pending| && i <= n
        invariant websocket == old(websocket) + pending[..i]
      {
        websocket := websocket + [pending[i]];
        i := i + 1;
      }
      assert pending[..i] == Firsts(pending, n);
    }

    method UpdateOwnRow(now: int, t: TaskId, row: TaskRow)
      modifies storage
      ensures storage.View(now) == UpdateOwn(old(storage.View(now)), runner, t, row)
    {
      if t in storage.tasks && storage.tasks[t].runner == Some(runner) {
        storage.UpdateRow(now, t, row);
      }
    }

    /** The effect of a new message on the tables. */
    method RunEffect(now: int, e: Envelope) returns (ghost active: Option<TaskId>)
      requires Valid()
      modifies storage
      ensures e.mtype == Heartbeat ==> IsActivePick(old(storage.View(now)), runner, active)
      ensures storage.View(now) == Effect(old(storage.View(now)), e, runner, cfg, active)
    {
      var me := RunnerOwner(runner);
      active := None;
      if e.mtype == Heartbeat {
        var current := storage.ActiveTask(now, runner);
        active := current;
        if current.Some? && e.payload.busy {
          var _ := storage.Renew(now, current.value, me, cfg.leaseSeconds);
        }
        return;
      }
      if e.taskId.None? {
        return;
      }
      var t := e.taskId.value;
      match e.mtype {
        case TaskAccepted =>
          var _ := storage.Renew(now, t, me, cfg.leaseSeconds);
          UpdateOwnRow(now, t, Row(storage.tasks, t).(status := Accepted));
        case TaskProgress =>
          var _ := storage.Renew(now, t, me, cfg.leaseSeconds);
          if !e.payload.persisted {
            UpdateOwnRow(now, t, ProgressRow(Row(storage.tasks, t), e.payload));
          }
        case PermissionRequest =>
          UpdateOwnRow(now, t, Row(storage.tasks, t).(status := WaitPermission));
          storage.CreatePermissionRequest(now, e.payload.request, t);
        case TaskCompleted =>
          if !e.payload.persisted {
            UpdateOwnRow(now, t, Row(storage.tasks, t).(status := WaitingApproval, progress := 100));
            storage.Complete(now, t, me, Done);
          }
        case TaskFailed =>
          if !e.payload.persisted {
            UpdateOwnRow(now, t, Row(storage.tasks, t).(status := TaskStatus.Failed));
            var _ := storage.Fail(now, t, me, cfg.retryBase);
          }
        case TaskCancelled =>
          if !e.payload.persisted {
            UpdateOwnRow(now, t, Row(storage.tasks, t).(status := TaskStatus.Cancelled));
            storage.Complete(now, t, me, JobCancelled);
          }
        case _ =>
      }
    }

    method HandleMessage(now: int, e: Envelope) returns (ghost active: Option<TaskId>)
      requires Valid()
      modifies this, storage, fromRunner, toRunner
      ensures e.mtype == Heartbeat && !Recorded(old(fromRunner.rows), e.num) ==>
                IsActivePick(old(storage.View(now)), runner, active)
      ensures View(now) == Handle(old(View(now)), e, runner, cfg, active).s
      ensures websocket == old(websocket) + Handle(old(View(now)), e, runner, cfg, active).out
      ensures e.mtype == Ack ==> websocket == old(websocket)
      ensures e.mtype != Ack ==> |websocket| == |old(websocket)| + 1
      ensures e.mtype != Ack ==>
                var a, isNew := websocket[|old(websocket)|], !Recorded(old(fromRunner.rows), e.num);
                && a.payload.ackSeq == Some(e.num)
                && a.mtype == (if isNew && e.mtype == Heartbeat then HeartbeatAck else Ack)
    {
      var isNew := fromRunner.Record(e);
      active := None;
      if e.mtype == Ack {
        return;
      }
      if !isNew {
        SendMessage(now, Ack, e.taskId, EMPTY.(ackSeq := Some(e.num)));
        return;
      }
      active := RunEffect(now, e);
      if IsApplication(e.mtype) {
        begun := begun + [e];
      }
      if e.mtype == Heartbeat {
        SendMessage(now, HeartbeatAck, None, EMPTY.(ackSeq := Some(e.num)));
      } else {
        SendMessage(now, Ack, e.taskId, EMPTY.(ackSeq := Some(e.num)));
      }
    }

    /** The same, failing after the message has been recorded, before or after the end of its effect. */
    method FailMessage(now: int, e: Envelope, done: bool) returns (ghost active: Option<TaskId>)
      requires Valid()
      modifies this, storage, fromRunner
      ensures done && e.mtype == Heartbeat && !Recorded(old(fromRunner.rows), e.num) ==>
                IsActivePick(old(storage.View(now)), runner, active)
      ensures View(now) == FailToHandle(old(View(now)), e, runner, cfg, active, done) && websocket == old(websocket)
    {
      var isNew := fromRunner.Record(e);
      active := None;
      if isNew && IsApplication(e.mtype) {
        if done {
          active := RunEffect(now, e);
        } else {
          dropped := dropped + {e};
        }
        begun := begun + [e];
      }
      session := Closed;
    }

    /** A user decides a permission request; the second decision of a request is refused. */
    method Decide(now: int, request: nat, content: nat) returns (resolved: bool)
      modifies this`unsent, this`decided, storage
      ensures resolved <==> IsOpen(old(storage.View(now)), request)
      ensures View(now) == Resolve(old(View(now)), request, content)
      ensures !IsOpen(storage.View(now), request)
    {
      resolved := storage.ResolvePermissionRequest(now, request);
      if resolved {
        var d := Decision(request, storage.requests[request].task, content);
        unsent, decided := unsent + [d], decided + [d];
      }
    }

    method SendPermissionResult(now: int)
      requires Valid() && unsent != []
      modifies this`websocket, this`unsent, toRunner
      ensures View(now) == SendDecision(old(View(now))).s
      ensures websocket == old(websocket) + SendDecision(old(View(now))).out
      ensures unsent == old(unsent)[1..]
    {
      SendMessage(now, PermissionResult, Some(unsent[0].task), Verdict(unsent[0]));
      unsent := unsent[1..];
    }

    /** The same when the connection turns out to be lost. */
    method LosePermissionResult(now: int)
      requires Valid() && unsent != []
      modifies this`websocket, this`session, toRunner
      ensures View(now) == LoseDecision(old(View(now)))
    {
      SendMessage(now, PermissionResult, Some(unsent[0].task), Verdict(unsent[0]));
      session := Closed;
    }

    method SendPermissionResults(now: int)
      requires Valid()
      modifies this`websocket, this`unsent, toRunner
      ensures View(now) == SendDecisions(old(View(now))).s
      ensures websocket == old(websocket) + SendDecisions(old(View(now))).out
    {
      ghost var start := View(now);
      ghost var sent := [];
      while unsent != []
        invariant websocket == old(websocket) + sent
        invariant SendDecisions(start) == Reply(SendDecisions(View(now)).s, sent + SendDecisions(View(now)).out)
        decreases |unsent|
      {
        ghost var before := View(now);
        SendPermissionResult(now);
        Regroup(sent, SendDecision(before).out, SendDecisions(View(now)).out);
        Regroup(old(websocket), sent, SendDecision(before).out);
        sent := sent + SendDecision(before).out;
      }
    }

    method SendControl(now: int) returns (ghost c: Choice)
      requires Valid()
      modifies this, storage, toRunner
      ensures Possible(old(storage.View(now)), runner, c)
      ensures View(now) == Control(old(View(now)), runner, cfg, c).s
      ensures websocket == old(websocket) + Control(old(View(now)), runner, cfg, c).out
      ensures c.active.Some? ==>
                var t := c.active.value;
                && t in old(storage.tasks)
                && if old(storage.tasks)[t].cancelRequested && t !in old(cancelSent)
                   then |websocket| == |old(websocket)| + 1 && websocket[|old(websocket)|].mtype == CancelTask
                        && websocket[|old(websocket)|].taskId == Some(t) && cancelSent == old(cancelSent) + {t}
                   else websocket == old(websocket) && cancelSent == old(cancelSent)
      ensures c.active.None? ==> cancelSent == old(cancelSent)
      ensures c.active.None? && c.claim.None? ==> websocket == old(websocket)
      ensures c.active.None? && c.claim.Some? ==>
                && |websocket| == |old(websocket)| + 1 && websocket[|old(websocket)|].mtype == TaskAssign
                && websocket[|old(websocket)|].payload.task == c.claim.value
    {
      var active := storage.ActiveTask(now, runner);
      if active.Some? {
        c := Choice(active, None);
        if storage.tasks[active.value].cancelRequested && active.value !in cancelSent {
          cancelSent := cancelSent + {active.value};
          SendMessage(now, CancelTask, active, EMPTY);
        }
        return;
      }
      var claim := storage.Lease(now, RunnerTarget(runner), RunnerOwner(runner), cfg.leaseSeconds);
      c := Choice(None, claim);
      if claim.Some? {
        var t := claim.value;
        if t in storage.tasks {
          storage.UpdateRow(now, t, storage.tasks[t].(status := Assigned));
        }
        SendMessage(now, TaskAssign, claim, EMPTY.(task := t));
      }
    }

    /** One pass of the dispatch loop. */
    method DispatchControl(now: int) returns (ghost c: Choice)
      requires Valid()
      modifies this, storage, toRunner
      ensures Possible(Sweep(old(View(now)), runner).store, runner, c)
      ensures View(now) == Dispatch(old(View(now)), runner, cfg, c).s
      ensures websocket == old(websocket) + Dispatch(old(View(now)), runner, cfg, c).out
    {
      var _ := storage.RecoverExpiredJobs(now, Some(RunnerTarget(runner)));
      ghost var swept := View(now);
      assert swept == Sweep(old(View(now)), runner);
      SendPermissionResults(now);
      DecisionsFrame(swept);
      c := SendControl(now);
    }
  }
}
