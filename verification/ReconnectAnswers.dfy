/** How the runner answers the server's messages, over every run. */
module ReconnectAnswers {
  import opened Common
  import opened Envelopes
  import opened RunnerTransport
  import opened TaskQueue
  import opened MessageLog
  import opened Reconnect
  import opened ReconnectDelivery

  predicate IsAckOf(a: Envelope, e: Envelope) {
    a.mtype == Ack && a.payload.ackSeq == Some(e.num)
  }

  predicate IsAcceptanceOf(a: Envelope, e: Envelope) {
    a.mtype == TaskAccepted && a.taskId == Some(e.payload.task)
  }

  /** Exactly the right answers: an assignment is acknowledged and accepted, two more types are acknowledged. */
  predicate AnswersTo(said: seq<Envelope>, e: Envelope) {
    match e.mtype
    case TaskAssign => |said| == 2 && IsAckOf(said[0], e) && IsAcceptanceOf(said[1], e)
    case CancelTask => |said| == 1 && IsAckOf(said[0], e)
    case PermissionResult => |said| == 1 && IsAckOf(said[0], e)
    case _ => said == []
  }

  lemma AssignmentAnswered(r: RunnerSide, e: Envelope) returns (said: seq<Envelope>)
    requires e.mtype == TaskAssign
    ensures var m := OnAssign(r, e);
            && m.r.issued == r.issued + said && AnswersTo(said, e) && m.r.handled == r.handled
            && m.out == if r.ready && r.linked then said else []
  {
    var (r1, a) := Alloc(r, Ack, e.taskId, EMPTY.(ackSeq := Some(e.num)));
    var m1 := SendAck(r, e);
    var (r2, b) := Alloc(m1.r, TaskAccepted, Some(e.payload.task), EMPTY);
    said := [a, b];
  }

  lemma MessageAnswered(r: RunnerSide, e: Envelope) returns (said: seq<Envelope>)
    ensures var m := RunnerTransport.Begin(r, e);
            && m.r.issued == r.issued + said && AnswersTo(said, e)
            && m.r.handled == Noted(r, e).handled
            && m.out == if r.ready && r.linked then said else []
  {
    var r0 := AckPayload(Noted(r, e), e);
    if e.mtype == TaskAssign {
      said := AssignmentAnswered(r0, e);
    } else if e.mtype == CancelTask || e.mtype == PermissionResult {
      var (r1, a) := Alloc(r0, Ack, e.taskId, EMPTY.(ackSeq := Some(e.num)));
      said := [a];
    } else {
      said := [];
    }
  }

  /** A message the runner handles is answered at once: by what it numbers, and on the wire if a session stands. */
  lemma ReceiptIsAnswered(w: World)
    requires Enabled(w, RunnerReceive)
    ensures var w', e := Next(w, RunnerReceive), w.toRunner[0];
            && w.r.issued <= w'.r.issued && AnswersTo(w'.r.issued[|w.r.issued|..], e)
            && w'.toServer == w.toServer + if w.r.ready && w.r.linked then w'.r.issued[|w.r.issued|..] else []
  {
    var said := MessageAnswered(w.r, w.toRunner[0]);
    assert (w.r.issued + said)[|w.r.issued|..] == said;
  }

  /** Capabilities are announced after a registration, and only then. */
  lemma MarkAnnounces(w: World)
    requires Enabled(w, RunnerMark)
    ensures var said := Next(w, RunnerMark).r.issued;
            && w.r.issued <= said
            && (if w.handling.value.mtype == RegisterAck && w.handling.value.payload.accepted
                then |said| == |w.r.issued| + 1 && said[|w.r.issued|].mtype == Capability
                else said == w.r.issued)
  {
  }

  // ---------------------------------------------------------------- over every run

  ghost predicate Answered(issued: seq<Envelope>, e: Envelope) {
    && (e.mtype == TaskAssign || e.mtype == CancelTask || e.mtype == PermissionResult ==>
          exists i :: 0 <= i < |issued| && IsAckOf(issued[i], e))
    && (e.mtype == TaskAssign ==> exists i :: 0 <= i < |issued| && IsAcceptanceOf(issued[i], e))
  }

  ghost predicate AllAnswered(r: RunnerSide) {
    forall e | e in r.handled :: Answered(r.issued, e)
  }

  lemma AnswersLast(a: seq<Envelope>, b: seq<Envelope>, e: Envelope)
    requires Answered(a, e) && a <= b
    ensures Answered(b, e)
  {
    if exists i :: 0 <= i < |a| && IsAckOf(a[i], e) {
      var i :| 0 <= i < |a| && IsAckOf(a[i], e);
      assert IsAckOf(b[i], e);
    }
    if exists i :: 0 <= i < |a| && IsAcceptanceOf(a[i], e) {
      var i :| 0 <= i < |a| && IsAcceptanceOf(a[i], e);
      assert IsAcceptanceOf(b[i], e);
    }
  }

  lemma AnsweredNow(issued: seq<Envelope>, said: seq<Envelope>, e: Envelope)
    requires AnswersTo(said, e)
    ensures Answered(issued + said, e)
  {
    var all, n := issued + said, |issued|;
    if said != [] { assert all[n] == said[0]; }
    if e.mtype == TaskAssign { assert all[n + 1] == said[1]; }
  }

  lemma SameHandled(w: World, step: Step)
    requires Delivers(w) && Enabled(w, step) && !step.RunnerReceive? && !step.Crash?
    ensures Next(w, step).r.handled == w.r.handled
  {
    if step.RunnerMark? { FinishedKeepsHandled(w.r, w.handling.value); }
  }

  lemma FinishedKeepsHandled(r: RunnerSide, e: Envelope)
    ensures Finished(r, e).r.handled == r.handled
  {
  }

  lemma ReceiptKeepsAnswered(w: World)
    requires AllAnswered(w.r) && Enabled(w, RunnerReceive)
    ensures AllAnswered(Next(w, RunnerReceive).r)
  {
    var e := w.toRunner[0];
    var m := RunnerTransport.Begin(w.r, e);
    var said := MessageAnswered(w.r, e);
    AnsweredNow(w.r.issued, said, e);
    forall x | x in m.r.handled ensures Answered(m.r.issued, x) {
      if x in w.r.handled { AnswersLast(w.r.issued, m.r.issued, x); }
    }
  }

  lemma StepKeepsAnswered(w: World, step: Step)
    requires Delivers(w) && AllAnswered(w.r) && Enabled(w, step) && !step.Crash?
    ensures AllAnswered(Next(w, step).r)
  {
    if step.RunnerReceive? {
      ReceiptKeepsAnswered(w);
    } else {
      SameHandled(w, step);
      StepExtendsIssued(w, step);
      forall x | x in w.r.handled ensures Answered(Next(w, step).r.issued, x) {
        AnswersLast(w.r.issued, Next(w, step).r.issued, x);
      }
    }
  }

  lemma {:induction false} RunKeepsAnswered(w: World, steps: seq<Step>)
    requires Delivers(w) && AllAnswered(w.r) && Runs(w, steps) && forall step | step in steps :: !step.Crash?
    ensures AllAnswered(After(w, steps).r)
    decreases |steps|
  {
    if steps != [] {
      assert steps[0] in steps;
      StepKeepsAnswered(w, steps[0]);
      StepKeepsDelivery(w, steps[0]);
      RunKeepsAnswered(Next(w, steps[0]), steps[1..]);
    }
  }

  /**
   * Over every run in which the process does not die inside the handler: every assignment, cancellation and permission
   * result the runner has handled is acknowledged, and every assignment accepted.
   */
  lemma HandledIsAnswered(w0: World, steps: seq<Step>)
    requires Initial(w0) && Runs(w0, steps) && forall step | step in steps :: !step.Crash?
    ensures AllAnswered(After(w0, steps).r)
  {
    InitialDelivers(w0);
    RunKeepsAnswered(w0, steps);
  }
}
