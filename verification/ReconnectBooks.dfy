/** Two ledgers of the protocol, over all runs: the runner's queue of assigned tasks, and the decisions sent to it. */
module ReconnectBooks {
  import opened Common
  import opened Envelopes
  import opened RunnerState
  import opened RunnerTransport
  import opened TaskQueue
  import opened Tables
  import opened MessageLog
  import opened Gateway
  import opened Reconnect
  import opened ReconnectDelivery

  // ---------------------------------------------------------------- the task queue

  /** What handling a message does to the books. */
  lemma BeginBooks(r: RunnerSide, e: Envelope)
    ensures Begin(r, e).r.books == if e.mtype == TaskAssign then CheckBegun(r.books, e.payload.task) else r.books
  {
    if e.mtype == TaskAssign {
      AssignBooks(AckPayload(Noted(r, e), e), e);
    } else if e.mtype == CancelTask || e.mtype == PermissionResult {
      SendBooks(AckPayload(Noted(r, e), e), Ack, e.taskId, EMPTY.(ackSeq := Some(e.num)));
    }
  }

  lemma AssignBooks(r: RunnerSide, e: Envelope)
    ensures OnAssign(r, e).r.books == CheckBegun(r.books, e.payload.task)
  {
    SendBooks(r, Ack, e.taskId, EMPTY.(ackSeq := Some(e.num)));
    SendBooks(SendAck(r, e).r, TaskAccepted, Some(e.payload.task), EMPTY);
  }

  lemma SendBooks(r: RunnerSide, t: MessageType, task: Option<TaskId>, payload: Payload)
    ensures Send(r, t, task, payload).r.books == r.books
  {
  }

  lemma FinishedBooks(r: RunnerSide, e: Envelope)
    ensures Finished(r, e).r.books == r.books
  {
  }

  /** The books are in step, and no check outlasts its handler. */
  ghost predicate QueueKept(w: World) {
    BooksOk(w.r.books) && (w.handling.None? ==> w.r.books.check.Idle?)
  }

  /** Only these steps touch the books. */
  lemma BooksFrame(w: World, step: Step)
    requires Enabled(w, step) && !step.Keep? && !step.RunnerReceive? && !step.Restart? && !step.Crash?
    ensures Next(w, step).r.books == w.r.books
    ensures Next(w, step).handling.None? ==> w.handling.None? || w.r.books.check.Idle?
  {
    if step.RunnerMark? { FinishedBooks(w.r, w.handling.value); }
  }

  lemma StepKeepsQueue(w: World, step: Step)
    requires QueueKept(w) && Enabled(w, step)
    ensures QueueKept(Next(w, step))
  {
    match step
    case Keep(move) =>
      MoveKeepsBooks(w.r.books, move);
      IdleStaysIdle(w.r.books, move);
    case RunnerReceive =>
      var e := w.toRunner[0];
      BeginBooks(w.r, e);
      CheckBegunKeepsBooks(w.r.books, e.payload.task);
    case Restart(_) => NoTasksOk();
    case Crash(_, _, _) => NoTasksOk();
    case _ => BooksFrame(w, step);
  }

  lemma IdleStaysIdle(b: Books, move: BookMove)
    ensures b.check.Idle? ==> Move(b, move).check.Idle?
  {
  }

  lemma {:induction false} RunKeepsQueue(w: World, steps: seq<Step>)
    requires QueueKept(w) && Runs(w, steps)
    ensures QueueKept(After(w, steps))
    decreases |steps|
  {
    if steps != [] {
      StepKeepsQueue(w, steps[0]);
      RunKeepsQueue(Next(w, steps[0]), steps[1..]);
    }
  }

  /** In every reachable state queue and set are in step, and no task waits twice. */
  lemma QueueHoldsEachTaskOnce(w: World)
    requires Reachable(w)
    ensures QueueKept(w)
  {
    var w0, steps :| Initial(w0) && Runs(w0, steps) && After(w0, steps) == w;
    NoTasksOk();
    RunKeepsQueue(w0, steps);
  }

  /** The step is a look into the set that queues a task being worked on. */
  ghost predicate DoublesTask(w: World, step: Step) {
    step.Keep? && Doubles(w.r.books, step.move)
  }

  lemma StepDoublesIff(w: World, step: Step)
    requires QueueKept(w) && Single(w.r.books) && Enabled(w, step)
    ensures Single(Next(w, step).r.books) <==> !DoublesTask(w, step)
  {
    match step
    case Keep(move) => MoveDoublesIff(w.r.books, move);
    case RunnerReceive => BeginBooks(w.r, w.toRunner[0]);
    case Restart(_) =>
    case Crash(_, _, _) =>
    case _ => BooksFrame(w, step);
  }

  /**
   * Exactly when a task that is being worked on is queued a second time, in every reachable state: the handler of
   * another assignment of it looks into the set of identifiers after a time, no earlier than its reading of the active
   * task, at which the task was out of the set and not yet active, and before the task is finished.
   */
  lemma TaskDoublesIffReadsMeetTheGap(w: World, step: Step)
    requires Reachable(w) && Single(w.r.books) && Enabled(w, step)
    ensures Single(Next(w, step).r.books) <==> !DoublesTask(w, step)
  {
    QueueHoldsEachTaskOnce(w);
    StepDoublesIff(w, step);
  }

  ghost predicate NeverDoubles(w: World, steps: seq<Step>)
    requires Runs(w, steps)
    decreases |steps|
  {
    steps == [] || (!DoublesTask(w, steps[0]) && NeverDoubles(Next(w, steps[0]), steps[1..]))
  }

  /** Over every run without such a look no task is queued while it is worked on. */
  lemma {:induction false} NoTaskDoubles(w: World, steps: seq<Step>)
    requires QueueKept(w) && Single(w.r.books) && Runs(w, steps) && NeverDoubles(w, steps)
    ensures QueueKept(After(w, steps)) && Single(After(w, steps).r.books)
    decreases |steps|
  {
    if steps != [] {
      StepDoublesIff(w, steps[0]);
      StepKeepsQueue(w, steps[0]);
      NoTaskDoubles(Next(w, steps[0]), steps[1..]);
    }
  }

  // ---------------------------------------------------------------- permission decisions

  function Told(e: Envelope): Decision
    requires e.taskId.Some?
  {
    Decision(e.payload.request, e.taskId.value, e.payload.content)
  }

  /** The decisions among the rows, in order. */
  function DecisionsIn(rows: seq<Envelope>): seq<Decision> {
    if rows == [] then []
    else
      var e := rows[|rows| - 1];
      DecisionsIn(rows[..|rows| - 1]) +
      (if e.mtype == PermissionResult && e.taskId.Some? then [Told(e)] else [])
  }

  lemma {:induction false} DecisionsAppend(rows: seq<Envelope>, more: seq<Envelope>)
    ensures DecisionsIn(rows + more) == DecisionsIn(rows) + DecisionsIn(more)
    decreases |more|
  {
    if more == [] {
      assert rows + more == rows;
    } else {
      var n := |more| - 1;
      assert (rows + more)[..|rows + more| - 1] == rows + more[..n];
      DecisionsAppend(rows, more[..n]);
    }
  }

  lemma {:induction false} NoDecisions(rows: seq<Envelope>)
    requires forall e | e in rows :: e.mtype != PermissionResult
    ensures DecisionsIn(rows) == []
    decreases |rows|
  {
    if rows != [] {
      assert rows[|rows| - 1] in rows;
      NoDecisions(rows[..|rows| - 1]);
    }
  }

  lemma {:induction false} UnsentAreSent(s: ServerSide)
    requires ServerOk(s)
    ensures DecisionsIn(SendDecisions(s).out) == s.unsent
    decreases |s.unsent|
  {
    if s.unsent != [] {
      var m := FirstIsSent(s);
      UnsentAreSent(m.s);
      DecisionsAppend(m.out, SendDecisions(m.s).out);
      assert s.unsent == [s.unsent[0]] + s.unsent[1..];
    }
  }

  lemma FirstIsSent(s: ServerSide) returns (m: Reply)
    requires ServerOk(s) && s.unsent != []
    ensures ServerOk(m.s) && m.s.unsent == s.unsent[1..] && DecisionsIn(m.out) == [s.unsent[0]]
    ensures SendDecisions(s).out == m.out + SendDecisions(m.s).out
  {
    m := SendDecision(s);
    DecisionServes(s);
    OneDecision(s);
  }

  lemma OneDecision(s: ServerSide)
    requires s.unsent != []
    ensures DecisionsIn(SendDecision(s).out) == [s.unsent[0]]
  {
    var out := SendDecision(s).out;
    assert out == [out[0]] && out[..0] == [];
  }

  /**
   * What was logged tells the decisions made and sent, in order, each at least once; behind them the oldest unsent one
   * may have been told already.
   */
  predicate Tells(logged: seq<Decision>, sent: seq<Decision>, unsent: seq<Decision>)
    decreases |logged|
  {
    if logged == [] then sent == []
    else
      var front, last := logged[..|logged| - 1], logged[|logged| - 1];
      || (unsent != [] && last == unsent[0] && Tells(front, sent, unsent))
      || (sent != [] && last == sent[|sent| - 1] && Tells(front, sent[..|sent| - 1], [last] + unsent))
  }

  lemma TellsSent(logged: seq<Decision>, sent: seq<Decision>, unsent: seq<Decision>)
    requires Tells(logged, sent, unsent) && unsent != []
    ensures Tells(logged + [unsent[0]], sent + [unsent[0]], unsent[1..])
  {
    assert (logged + [unsent[0]])[..|logged|] == logged && (sent + [unsent[0]])[..|sent|] == sent;
    assert [unsent[0]] + unsent[1..] == unsent;
  }

  lemma TellsLost(logged: seq<Decision>, sent: seq<Decision>, unsent: seq<Decision>)
    requires Tells(logged, sent, unsent) && unsent != []
    ensures Tells(logged + [unsent[0]], sent, unsent)
  {
    assert (logged + [unsent[0]])[..|logged|] == logged;
  }

  lemma {:induction false} TellsAllSent(
      logged: seq<Decision>, sent: seq<Decision>, unsent: seq<Decision>, none: seq<Decision>)
    requires Tells(logged, sent, unsent) && none == []
    ensures Tells(logged + unsent, sent + unsent, none)
    decreases |unsent|
  {
    if unsent == [] {
      assert logged + unsent == logged && sent + unsent == sent;
    } else {
      TellsSent(logged, sent, unsent);
      TellsAllSent(logged + [unsent[0]], sent + [unsent[0]], unsent[1..], none);
      assert logged + [unsent[0]] + unsent[1..] == logged + unsent;
      assert sent + [unsent[0]] + unsent[1..] == sent + unsent;
    }
  }

  lemma {:induction false} TellsMoreWaiting(
      logged: seq<Decision>, sent: seq<Decision>, unsent: seq<Decision>, more: seq<Decision>)
    requires Tells(logged, sent, unsent)
    ensures Tells(logged, sent, unsent + more)
    decreases |logged|
  {
    if logged != [] {
      var front, last := logged[..|logged| - 1], logged[|logged| - 1];
      if unsent != [] && last == unsent[0] && Tells(front, sent, unsent) {
        TellsMoreWaiting(front, sent, unsent, more);
      } else {
        TellsMoreWaiting(front, sent[..|sent| - 1], [last] + unsent, more);
        assert [last] + unsent + more == [last] + (unsent + more);
      }
    }
  }

  /** The decisions made, but for those that wait. */
  function SentOnes(s: ServerSide): seq<Decision>
    requires |s.unsent| <= |s.decided|
  {
    s.decided[..|s.decided| - |s.unsent|]
  }

  ghost predicate DecisionsOk(s: ServerSide, lost: nat) {
    && |s.unsent| <= |s.decided| && s.decided == SentOnes(s) + s.unsent
    && Tells(DecisionsIn(s.serverLog), SentOnes(s), s.unsent)
    && |DecisionsIn(s.serverLog)| == |SentOnes(s)| + lost
    && (lost == 0 ==> DecisionsIn(s.serverLog) == SentOnes(s))
  }

  lemma QuietLogKeepsDecisions(s: ServerSide, s': ServerSide, out: seq<Envelope>, lost: nat)
    requires DecisionsOk(s, lost) && s'.serverLog == s.serverLog + out
    requires s'.unsent == s.unsent && s'.decided == s.decided
    requires forall e | e in out :: e.mtype != PermissionResult
    ensures DecisionsOk(s', lost)
  {
    DecisionsAppend(s.serverLog, out);
    NoDecisions(out);
    assert DecisionsIn(s'.serverLog) == DecisionsIn(s.serverLog);
    assert SentOnes(s') == SentOnes(s);
  }

  lemma AllSentKeepsDecisions(s: ServerSide, s': ServerSide, out: seq<Envelope>, lost: nat)
    requires DecisionsOk(s, lost) && s'.serverLog == s.serverLog + out && DecisionsIn(out) == s.unsent
    requires s'.unsent == [] && s'.decided == s.decided
    ensures DecisionsOk(s', lost)
  {
    DecisionsAppend(s.serverLog, out);
    TellsAllSent(DecisionsIn(s.serverLog), SentOnes(s), s.unsent, s'.unsent);
    assert SentOnes(s') == SentOnes(s) + s.unsent;
    assert DecisionsIn(s'.serverLog) == DecisionsIn(s.serverLog) + s.unsent;
  }

  lemma ControlKeepsDecisions(s: ServerSide, r: RunnerId, cfg: Settings, c: Choice, lost: nat)
    requires ServerOk(s) && DecisionsOk(s, lost) && Possible(s.store, r, c)
    ensures DecisionsOk(Control(s, r, cfg, c).s, lost)
  {
    ControlServes(s, r, cfg, c);
    QuietLogKeepsDecisions(s, Control(s, r, cfg, c).s, Control(s, r, cfg, c).out, lost);
  }

  lemma DispatchKeepsDecisions(s: ServerSide, r: RunnerId, cfg: Settings, c: Choice, lost: nat)
    requires ServerOk(s) && DecisionsOk(s, lost) && Possible(Sweep(s, r).store, r, c)
    ensures DecisionsOk(Dispatch(s, r, cfg, c).s, lost)
  {
    var s1 := Sweep(s, r);
    DispatchParts(s, r, cfg, c);
    DecisionsServe(s1);
    UnsentAreSent(s1);
    AllSentKeepsDecisions(s, SendDecisions(s1).s, SendDecisions(s1).out, lost);
    ControlKeepsDecisions(SendDecisions(s1).s, r, cfg, c, lost);
  }

  lemma LossKeepsDecisions(s: ServerSide, lost: nat)
    requires ServerOk(s) && DecisionsOk(s, lost) && s.unsent != []
    ensures DecisionsOk(LoseDecision(s), lost + 1)
  {
    DecisionServes(s);
    DecisionsAppend(s.serverLog, SendDecision(s).out);
    OneDecision(s);
    TellsLost(DecisionsIn(s.serverLog), SentOnes(s), s.unsent);
  }

  lemma NewKeepsDecisions(s: ServerSide, s': ServerSide, more: seq<Decision>, lost: nat)
    requires DecisionsOk(s, lost) && s'.serverLog == s.serverLog
    requires s'.unsent == s.unsent + more && s'.decided == s.decided + more
    ensures DecisionsOk(s', lost)
  {
    TellsMoreWaiting(DecisionsIn(s.serverLog), SentOnes(s), s.unsent, more);
    assert SentOnes(s') == SentOnes(s);
  }

  lemma RegisterKeepsDecisions(s: ServerSide, e: Envelope, lost: nat)
    requires ServerOk(s) && DecisionsOk(s, lost) && e.mtype == Register
    ensures DecisionsOk(OnRegister(s, e).s, lost)
  {
    RegisterServes(s, e);
    QuietLogKeepsDecisions(s, OnRegister(s, e).s, OnRegister(s, e).out, lost);
  }

  lemma RefusalKeepsDecisions(s: ServerSide, e: Envelope, lost: nat)
    requires ServerOk(s) && DecisionsOk(s, lost) && e.mtype == Reconnect && e.payload.version < s.minVersion
    ensures DecisionsOk(OnReconnect(s, e).s, lost)
  {
    RefusalServes(s, e);
    QuietLogKeepsDecisions(s, OnReconnect(s, e).s, OnReconnect(s, e).out, lost);
  }

  lemma ResumeKeepsDecisions(s: ServerSide, e: Envelope, lost: nat)
    requires ServerOk(s) && DecisionsOk(s, lost) && e.mtype == Reconnect && e.payload.version >= s.minVersion
    requires s.known
    ensures DecisionsOk(OnReconnect(s, e).s, lost)
  {
    ResumeParts(s, e);
    AnsweredServes(s, e);
    QuietLogKeepsDecisions(s, Answered(s, e).s, Answered(s, e).out, lost);
  }

  lemma HandleKeepsDecisions(
      s: ServerSide, e: Envelope, r: RunnerId, cfg: Settings, active: Option<TaskId>, lost: nat)
    requires ServerOk(s) && DecisionsOk(s, lost)
    ensures DecisionsOk(Handle(s, e, r, cfg, active).s, lost)
  {
    HandleServes(s, e, r, cfg, active);
    HandleDecidesNothing(s, e, r, cfg, active);
    QuietLogKeepsDecisions(s, Handle(s, e, r, cfg, active).s, Handle(s, e, r, cfg, active).out, lost);
  }

  lemma HandleDecidesNothing(s: ServerSide, e: Envelope, r: RunnerId, cfg: Settings, active: Option<TaskId>)
    ensures var m := Handle(s, e, r, cfg, active);
            && m.s.unsent == s.unsent && m.s.decided == s.decided
            && forall x | x in m.out :: x.mtype != PermissionResult
  {
  }

  lemma AnswerKeepsDecisions(w: World, step: Step, lost: nat)
    requires Delivers(w) && DecisionsOk(w.s, lost) && step.ServerReceive? && Enabled(w, step)
    ensures DecisionsOk(Next(w, step).s, lost)
  {
    var e := w.toServer[0];
    if w.s.session != Waiting {
      HandleKeepsDecisions(w.s, e, w.id, w.cfg, step.active, lost);
    } else if e.mtype == Register {
      RegisterKeepsDecisions(w.s, e, lost);
    } else if e.mtype == Reconnect {
      if e.payload.version < w.s.minVersion {
        RefusalKeepsDecisions(w.s, e, lost);
      } else if w.s.known {
        ResumeKeepsDecisions(w.s, e, lost);
      }
    }
  }

  /** A failed send repeats a decision later. */
  function Repeats(step: Step): nat {
    if step.DecisionFails? then 1 else 0
  }

  lemma FailureKeepsDecisions(
      s: ServerSide, e: Envelope, r: RunnerId, cfg: Settings, active: Option<TaskId>, done: bool, lost: nat)
    requires ServerOk(s) && DecisionsOk(s, lost)
    ensures DecisionsOk(FailToHandle(s, e, r, cfg, active, done), lost)
  {
    FailureServes(s, e, r, cfg, active, done);
    QuietLogKeepsDecisions(s, FailToHandle(s, e, r, cfg, active, done), [], lost);
  }

  lemma HelloFailureKeepsDecisions(s: ServerSide, e: Envelope, upserted: bool, replayed: nat, lost: nat)
    requires ServerOk(s) && DecisionsOk(s, lost)
    ensures DecisionsOk(FailToAnswer(s, e, upserted, replayed).s, lost)
  {
    HelloFailureServes(s, e, upserted, replayed);
    QuietLogKeepsDecisions(s, FailToAnswer(s, e, upserted, replayed).s, [], lost);
  }

  lemma ResolveKeepsDecisions(s: ServerSide, request: nat, content: nat, lost: nat)
    requires DecisionsOk(s, lost)
    ensures DecisionsOk(Resolve(s, request, content), lost)
  {
    if IsOpen(s.store, request) {
      var d := Decision(request, s.store.requests[request].task, content);
      NewKeepsDecisions(s, Resolve(s, request, content), [d], lost);
    }
  }

  lemma StepKeepsDecisions(w: World, step: Step, lost: nat)
    requires Delivers(w) && DecisionsOk(w.s, lost) && Enabled(w, step)
    ensures DecisionsOk(Next(w, step).s, lost + Repeats(step))
  {
    match step
    case ServerReceive(_) => AnswerKeepsDecisions(w, step, lost);
    case HandlerFails(done, active) => FailureKeepsDecisions(w.s, w.toServer[0], w.id, w.cfg, active, done, lost);
    case HelloFails(upserted, replayed) => HelloFailureKeepsDecisions(w.s, w.toServer[0], upserted, replayed, lost);
    case ServerDispatch(c) => DispatchKeepsDecisions(w.s, w.id, w.cfg, c, lost);
    case DecisionFails => LossKeepsDecisions(w.s, lost);
    case Decide(request, content) => ResolveKeepsDecisions(w.s, request, content, lost);
    case _ =>
  }

  lemma {:induction false} FailedSendsAppend(a: seq<Step>, b: seq<Step>)
    ensures FailedSends(a + b) == FailedSends(a) + FailedSends(b)
    decreases |a|
  {
    if a == [] {
      assert a + b == b;
    } else {
      FailedSendsAppend(a[1..], b);
      assert (a + b)[1..] == a[1..] + b;
    }
  }

  function FailedSends(steps: seq<Step>): nat {
    if steps == [] then 0 else Repeats(steps[0]) + FailedSends(steps[1..])
  }

  lemma {:induction false} RunKeepsDecisions(w: World, steps: seq<Step>, lost: nat)
    requires Delivers(w) && DecisionsOk(w.s, lost) && Runs(w, steps)
    ensures DecisionsOk(After(w, steps).s, lost + FailedSends(steps))
    decreases |steps|
  {
    if steps != [] {
      StepKeepsDecisions(w, steps[0], lost);
      StepKeepsDelivery(w, steps[0]);
      RunKeepsDecisions(Next(w, steps[0]), steps[1..], lost + Repeats(steps[0]));
    }
  }

  /**
   * Over every run: every decision is logged at least once, in the order made, or still waits; the log repeats a
   * decision once for every send of one that failed; so each is logged once if and only if no such send failed.
   */
  lemma DecisionsAreSentOnceIff(w0: World, steps: seq<Step>, w: World)
    requires Initial(w0) && Runs(w0, steps) && w == After(w0, steps)
    ensures |w.s.unsent| <= |w.s.decided| && w.s.decided == SentOnes(w.s) + w.s.unsent
    ensures Tells(DecisionsIn(w.s.serverLog), SentOnes(w.s), w.s.unsent)
    ensures |DecisionsIn(w.s.serverLog)| == |SentOnes(w.s)| + FailedSends(steps)
    ensures DecisionsIn(w.s.serverLog) + w.s.unsent == w.s.decided <==> FailedSends(steps) == 0
  {
    InitialDelivers(w0);
    RunKeepsDecisions(w0, steps, 0);
  }
}
