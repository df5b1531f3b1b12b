/** No runner message is lost and none takes effect twice, over every run of the reconnect protocol. */
module ReconnectDelivery {
  import opened Common
  import opened Envelopes
  import opened RunnerState
  import opened RunnerTransport
  import opened TaskQueue
  import opened Tables
  import opened MessageLog
  import opened Gateway
  import opened Reconnect

  /** e is the envelope that was numbered e.num. */
  ghost predicate Issued(issued: seq<Envelope>, e: Envelope) {
    1 <= e.num <= |issued| && issued[e.num - 1] == e
  }

  ghost predicate AllIssued(issued: seq<Envelope>, xs: seq<Envelope>) {
    forall e | e in xs :: Issued(issued, e)
  }

  /** Sequence numbers are given out once each, and what is pending was given out. */
  ghost predicate RunnerOk(r: RunnerSide) {
    && r.p.nextSeq == |r.issued| + 1
    && (forall i | 0 <= i < |r.issued| :: r.issued[i].num == i + 1)
    && (forall k | k in r.p.pending :: r.p.pending[k].num == k && Issued(r.issued, r.p.pending[k]))
  }

  ghost predicate AppNumber(issued: seq<Envelope>, k: int) {
    1 <= k <= |issued| && IsApplication(issued[k - 1].mtype)
  }

  /** One move of the runner keeps every application message pending except the one just acknowledged. */
  ghost predicate Moves(r: RunnerSide, m: Moved, acked: Option<nat>) {
    && RunnerOk(m.r)
    && r.issued <= m.r.issued
    && AllIssued(m.r.issued, m.out)
    && (forall k | k in r.p.pending && IsApplication(r.p.pending[k].mtype) && acked != Some(k) :: k in m.r.p.pending)
    && (forall k | |r.issued| < k && AppNumber(m.r.issued, k) :: k in m.r.p.pending)
    && (forall k | k in m.r.p.pending :: k in r.p.pending || k > |r.issued|)
    && (acked.Some? ==> acked.value !in m.r.p.pending || acked.value > |r.issued|)
  }

  lemma IssuedGrows(issued: seq<Envelope>, more: seq<Envelope>, xs: seq<Envelope>)
    requires issued <= more && AllIssued(issued, xs)
    ensures AllIssued(more, xs)
  {
    forall e | e in xs ensures Issued(more, e) {
      assert Issued(issued, e);
    }
  }

  lemma MovesCompose(r: RunnerSide, m1: Moved, m2: Moved, acked: Option<nat>)
    requires RunnerOk(r) && Moves(r, m1, acked) && Moves(m1.r, m2, None)
    ensures Moves(r, Moved(m2.r, m1.out + m2.out), acked)
  {
    var out := m1.out + m2.out;
    IssuedGrows(m1.r.issued, m2.r.issued, m1.out);
    assert AllIssued(m2.r.issued, out);
    forall k | |r.issued| < k && AppNumber(m2.r.issued, k) ensures k in m2.r.p.pending {
      ComposePending(r, m1, m2, k);
    }
    forall k | k in r.p.pending && IsApplication(r.p.pending[k].mtype) && acked != Some(k)
      ensures k in m2.r.p.pending
    {
      assert Issued(r.issued, r.p.pending[k]);
      StillPending(m1, m2, r.p.pending[k]);
    }
    forall k | k in m2.r.p.pending ensures k in r.p.pending || k > |r.issued| {
      assert k in m1.r.p.pending || k > |m1.r.issued|;
    }
  }

  lemma StillPending(m1: Moved, m2: Moved, e: Envelope)
    requires RunnerOk(m1.r) && Moves(m1.r, m2, None)
    requires Issued(m1.r.issued, e) && IsApplication(e.mtype) && e.num in m1.r.p.pending
    ensures e.num in m2.r.p.pending
  {
    assert Issued(m1.r.issued, m1.r.p.pending[e.num]);
  }

  lemma ComposePending(r: RunnerSide, m1: Moved, m2: Moved, k: int)
    requires RunnerOk(r) && Moves(m1.r, m2, None) && RunnerOk(m1.r) && r.issued <= m1.r.issued
    requires forall k | |r.issued| < k && AppNumber(m1.r.issued, k) :: k in m1.r.p.pending
    requires |r.issued| < k && AppNumber(m2.r.issued, k)
    ensures k in m2.r.p.pending
  {
    if k <= |m1.r.issued| {
      assert m1.r.issued[k - 1] == m2.r.issued[k - 1];
      assert AppNumber(m1.r.issued, k);
      StillPending(m1, m2, m1.r.issued[k - 1]);
    }
  }

  lemma SendMoves(r: RunnerSide, t: MessageType, task: Option<TaskId>, payload: Payload)
    requires RunnerOk(r)
    ensures Moves(r, Send(r, t, task, payload), None)
  {
  }

  lemma OpenMoves(r: RunnerSide)
    requires RunnerOk(r)
    ensures Moves(r, Open(r), None)
  {
  }

  lemma OnAssignMoves(r: RunnerSide, e: Envelope)
    requires RunnerOk(r)
    ensures Moves(r, OnAssign(r, e), None)
  {
    var m1 := SendAck(r, e);
    var m2 := Send(m1.r, TaskAccepted, Some(e.payload.task), EMPTY);
    SendMoves(r, Ack, e.taskId, EMPTY.(ackSeq := Some(e.num)));
    SendMoves(m1.r, TaskAccepted, Some(e.payload.task), EMPTY);
    MovesCompose(r, m1, m2, None);
    QueueOnlyMoves(r, Moved(m2.r, m1.out + m2.out), m2.r.(books := CheckBegun(m2.r.books, e.payload.task)));
  }

  /** Moves looks at the protocol state and the history only. */
  lemma QueueOnlyMoves(r: RunnerSide, m: Moved, r': RunnerSide)
    requires Moves(r, m, None) && r'.p == m.r.p && r'.issued == m.r.issued
    ensures Moves(r, Moved(r', m.out), None)
  {
  }

  lemma ReadiedMoves(r: RunnerSide, e: Envelope)
    requires RunnerOk(r) && Readies(e)
    ensures Moves(r, Moved(Readied(r, e), []), None)
  {
  }

  lemma AbsorbMoves(r: RunnerSide, e: Envelope)
    requires RunnerOk(r)
    ensures Moves(r, Moved(AckPayload(Noted(r, e), e), []), e.payload.ackSeq)
  {
  }

  /** Handling a server message. */
  lemma BeginMoves(r: RunnerSide, e: Envelope)
    requires RunnerOk(r)
    ensures Moves(r, Begin(r, e), e.payload.ackSeq)
  {
    var r0 := AckPayload(Noted(r, e), e);
    AbsorbMoves(r, e);
    var m := Begin(r, e);
    if Readies(e) {
      ReadiedMoves(r0, e);
    } else if e.mtype == TaskAssign {
      OnAssignMoves(r0, e);
    } else if e.mtype == CancelTask || e.mtype == PermissionResult {
      SendMoves(r0, Ack, e.taskId, EMPTY.(ackSeq := Some(e.num)));
    } else {
      assert Moves(r0, m, None);
    }
    MovesCompose(r, Moved(r0, []), m, e.payload.ackSeq);
    assert [] + m.out == m.out;
  }

  lemma AllocMoves(r: RunnerSide, t: MessageType, task: Option<TaskId>, payload: Payload)
    requires RunnerOk(r)
    ensures var (r1, e) := Alloc(r, t, task, payload); Moves(r, Moved(r1, TrySend(r, e)), None)
  {
  }

  lemma MarkRegisteredMoves(r: RunnerSide)
    requires RunnerOk(r)
    ensures Moves(r, Moved(r.(p := MarkRegistered(r.p)), []), None)
  {
  }

  /** A handler that is cut short keeps its promises as far as it got. */
  lemma CutMoves(r: RunnerSide, e: Envelope, cut: nat)
    requires RunnerOk(r)
    ensures Moves(r, CutShort(r, e, cut), e.payload.ackSeq)
  {
    var r0, m := AckPayload(Noted(r, e), e), CutShort(r, e, cut);
    AbsorbMoves(r, e);
    if cut == 0 {
    } else if e.mtype == RegisterAck && e.payload.accepted {
      MarkRegisteredMoves(r0);
    } else if e.mtype == TaskAssign && cut > 1 {
      SendMoves(r0, Ack, e.taskId, EMPTY.(ackSeq := Some(e.num)));
    } else if e.mtype == TaskAssign || e.mtype == CancelTask || e.mtype == PermissionResult {
      AllocMoves(r0, Ack, e.taskId, EMPTY.(ackSeq := Some(e.num)));
    }
    if m.r != r0 || m.out != [] {
      MovesCompose(r, Moved(r0, []), m, e.payload.ackSeq);
      assert [] + m.out == m.out;
    }
  }

  lemma {:induction false} WithoutHellosMembers(items: seq<Envelope>)
    ensures forall e :: e in WithoutHellos(items) <==> e in items && !IsHello(e.mtype)
  {
    if items != [] {
      WithoutHellosMembers(items[..|items| - 1]);
      assert items == items[..|items| - 1] + [items[|items| - 1]];
    }
  }

  /** A flush puts exactly the pending messages on the wire, hellos aside. */
  lemma FlushedMembers(r: RunnerSide)
    requires RunnerOk(r)
    ensures forall e | e in Flushed(r) :: e.num in r.p.pending && r.p.pending[e.num] == e && !IsHello(e.mtype)
    ensures r.ready && r.linked ==>
              forall k | k in r.p.pending && !IsHello(r.p.pending[k].mtype) :: r.p.pending[k] in Flushed(r)
  {
    InOrderContents(r.p.pending);
    WithoutHellosMembers(InOrder(r.p.pending));
  }

  lemma FlushedMoves(r: RunnerSide)
    requires RunnerOk(r)
    ensures Moves(r, Moved(r, Flushed(r)), None)
  {
    FlushedMembers(r);
    forall e | e in Flushed(r) ensures Issued(r.issued, e) {
      assert r.p.pending[e.num] == e;
    }
  }

  lemma FlushMoves(r: RunnerSide, e: Envelope)
    requires RunnerOk(r)
    ensures Moves(r, Flush(r, e), None)
  {
    FlushedMoves(r);
    if e.mtype == RegisterAck {
      var m := Send(r, Capability, None, EMPTY);
      SendMoves(r, Capability, None, EMPTY);
      MovesCompose(r, Moved(r, Flushed(r)), m, None);
    }
  }

  lemma MarkMoves(r: RunnerSide, e: Envelope)
    requires RunnerOk(r)
    ensures Moves(r, Moved(Mark(r, e), []), None)
  {
  }

  // ---------------------------------------------------------------- the server's side

  /** The application rows of the log, in the order they were recorded. */
  function AppRows(rows: seq<Envelope>): seq<Envelope> {
    if rows == [] then []
    else AppRows(rows[..|rows| - 1]) +
         (if IsApplication(rows[|rows| - 1].mtype) then [rows[|rows| - 1]] else [])
  }

  ghost predicate ServerOk(s: ServerSide) {
    Dense(s.serverLog) && Unique(s.runnerLog) && s.begun == AppRows(s.runnerLog)
  }

  ghost predicate IsAckFor(e: Envelope, k: int) {
    e.payload.ackSeq.Some? && e.payload.ackSeq.value == k
  }

  /**
   * One move of the server only extends its logs; new messages acknowledge nothing but what is recorded, except that a
   * refusal may name the Reconnect `hello` it refuses.
   */
  ghost predicate Serves(s: ServerSide, m: Reply, hello: Option<int>) {
    && ServerOk(m.s)
    && s.runnerLog <= m.s.runnerLog
    && s.serverLog <= m.s.serverLog
    && (forall e | e in m.out :: e in m.s.serverLog)
    && (forall i, k | |s.serverLog| <= i < |m.s.serverLog| && IsAckFor(m.s.serverLog[i], k) ::
          Recorded(m.s.runnerLog, k) || (IsRejection(m.s.serverLog[i]) && hello == Some(k)))
  }

  lemma LogServes(s: ServerSide, t: MessageType, task: Option<TaskId>, payload: Payload, hello: Option<int>)
    requires ServerOk(s)
    requires payload.ackSeq.Some? ==>
               Recorded(s.runnerLog, payload.ackSeq.value)
               || (t == RegisterAck && !payload.accepted && hello == payload.ackSeq)
    ensures Serves(s, Log(s, t, task, payload), hello)
    ensures Log(s, t, task, payload).s.serverLog == s.serverLog + Log(s, t, task, payload).out
  {
    DenseAppend(s.serverLog, Log(s, t, task, payload).out[0]);
  }

  lemma NoteServes(s: ServerSide, e: Envelope)
    requires ServerOk(s)
    ensures Recorded(Note(s, e).runnerLog, e.num) && Unique(Note(s, e).runnerLog)
    ensures s.runnerLog <= Note(s, e).runnerLog
    ensures AppRows(Note(s, e).runnerLog) ==
            if !Recorded(s.runnerLog, e.num) && IsApplication(e.mtype) then s.begun + [e] else s.begun
  {
    var rows := Note(s, e).runnerLog;
    if !Recorded(s.runnerLog, e.num) {
      assert rows == s.runnerLog + [e];
      assert rows[|s.runnerLog|].num == e.num;
      assert rows[..|rows| - 1] == s.runnerLog;
    }
  }

  /** Sending logged rows again changes nothing that Serves looks at. */
  lemma ReplayServes(s: ServerSide, s1: ServerSide, m: Reply, replay: seq<Envelope>, hello: Option<int>)
    requires Serves(s1, m, None)
    requires s.runnerLog <= s1.runnerLog && s1.serverLog == s.serverLog
    requires forall x | x in replay :: x in s.serverLog
    ensures Serves(s, Reply(m.s, replay + m.out), hello)
  {
  }

  /** Recording a message and, if it is new application traffic, its effect. */
  lemma RecordServes(s: ServerSide, s2: ServerSide, e: Envelope)
    requires ServerOk(s)
    requires s2.runnerLog == Insert(s.runnerLog, e) && s2.serverLog == s.serverLog
    requires s2.begun ==
             if !Recorded(s.runnerLog, e.num) && IsApplication(e.mtype) then s.begun + [e] else s.begun
    ensures ServerOk(s2) && Recorded(s2.runnerLog, e.num) && s.runnerLog <= s2.runnerLog
  {
    NoteServes(s, e);
  }

  /** Answering a recorded message. */
  lemma AnswerServes(s: ServerSide, s2: ServerSide, e: Envelope, t: MessageType, task: Option<TaskId>)
    requires ServerOk(s2) && Recorded(s2.runnerLog, e.num)
    requires s.runnerLog <= s2.runnerLog && s2.serverLog == s.serverLog
    ensures var m := Log(s2, t, task, EMPTY.(ackSeq := Some(e.num)));
            Serves(s, m, None) && m.s.serverLog == s.serverLog + m.out
  {
    LogServes(s2, t, task, EMPTY.(ackSeq := Some(e.num)), None);
    ReplayServes(s, s2, Log(s2, t, task, EMPTY.(ackSeq := Some(e.num))), [], None);
  }

  lemma HandleServes(s: ServerSide, e: Envelope, r: RunnerId, cfg: Settings, active: Option<TaskId>)
    requires ServerOk(s)
    ensures Serves(s, Handle(s, e, r, cfg, active), None)
    ensures Recorded(Handle(s, e, r, cfg, active).s.runnerLog, e.num)
    ensures Handle(s, e, r, cfg, active).s.serverLog == s.serverLog + Handle(s, e, r, cfg, active).out
    ensures Handle(s, e, r, cfg, active).s.session == s.session
    ensures Handle(s, e, r, cfg, active).s.runnerLog == Insert(s.runnerLog, e)
  {
    var s1 := Note(s, e);
    if e.mtype == Ack {
      RecordServes(s, s1, e);
    } else if Recorded(s.runnerLog, e.num) {
      RecordServes(s, s1, e);
      AnswerServes(s, s1, e, Ack, e.taskId);
    } else {
      var s2 := s1.(store := Effect(s1.store, e, r, cfg, active),
                    begun := if IsApplication(e.mtype) then s1.begun + [e] else s1.begun);
      RecordServes(s, s2, e);
      AnswerServes(s, s2, e, if e.mtype == Heartbeat then HeartbeatAck else Ack,
                   if e.mtype == Heartbeat then None else e.taskId);
    }
  }

  /** Serves looks at the logs and the effect history only. */
  lemma ServesFrame(s: ServerSide, s1: ServerSide, m: Reply, hello: Option<int>)
    requires Serves(s1, m, hello)
    requires s1.runnerLog == s.runnerLog && s1.serverLog == s.serverLog
    ensures Serves(s, m, hello)
  {
  }

  lemma RegisterServes(s: ServerSide, e: Envelope)
    requires ServerOk(s) && e.mtype == Register
    ensures Serves(s, OnRegister(s, e), None) && OnRegister(s, e).s.runnerLog == Insert(s.runnerLog, e)
    ensures OnRegister(s, e).s.serverLog == s.serverLog + OnRegister(s, e).out
  {
    RecordServes(s, Note(s, e), e);
    if e.payload.version < s.minVersion {
      NoteThenLogServes(s, Note(s, e), e, false);
    } else {
      NoteThenLogServes(s, Note(s, e).(known := true, session := Live), e, true);
    }
  }

  lemma NoteThenLogServes(s: ServerSide, s1: ServerSide, e: Envelope, accepted: bool)
    requires ServerOk(s1) && Recorded(s1.runnerLog, e.num)
    requires s.runnerLog <= s1.runnerLog && s1.serverLog == s.serverLog
    ensures var m := Log(s1, RegisterAck, None, EMPTY.(ackSeq := Some(e.num), accepted := accepted));
            Serves(s, m, None) && m.s.runnerLog == s1.runnerLog && m.s.serverLog == s.serverLog + m.out
  {
    LogServes(s1, RegisterAck, None, EMPTY.(ackSeq := Some(e.num), accepted := accepted), None);
  }

  lemma RefusalServes(s: ServerSide, e: Envelope)
    requires ServerOk(s) && e.mtype == Reconnect && e.payload.version < s.minVersion
    ensures Serves(s, OnReconnect(s, e), Some(e.num)) && OnReconnect(s, e).s.runnerLog == s.runnerLog
    ensures OnReconnect(s, e).s.serverLog == s.serverLog + OnReconnect(s, e).out
  {
    LogServes(s, RegisterAck, None, EMPTY.(ackSeq := Some(e.num), accepted := false), Some(e.num));
  }

  /** The server after it has recorded an accepted Reconnect, and the logged answer. */
  ghost function Resumed(s: ServerSide, e: Envelope): ServerSide {
    Note(s, e).(session := Live)
  }

  ghost function Answered(s: ServerSide, e: Envelope): Reply {
    Log(Resumed(s, e), Ack, e.taskId, EMPTY.(ackSeq := Some(e.num), reconnected := true))
  }

  lemma ResumeParts(s: ServerSide, e: Envelope)
    requires e.mtype == Reconnect && e.payload.version >= s.minVersion && s.known
    ensures OnReconnect(s, e) ==
            Reply(Answered(s, e).s, ListAfter(s.serverLog, e.payload.lastSeq) + Answered(s, e).out)
    ensures Answered(s, e).out == [Welcome(s, e)]
  {
  }

  lemma AnsweredServes(s: ServerSide, e: Envelope)
    requires ServerOk(s) && !IsApplication(e.mtype)
    ensures Serves(Resumed(s, e), Answered(s, e), None)
    ensures Answered(s, e).s.serverLog == s.serverLog + Answered(s, e).out
    ensures Answered(s, e).s.runnerLog == Insert(s.runnerLog, e) && s.runnerLog <= Resumed(s, e).runnerLog
  {
    NoteServes(s, e);
    LogServes(Resumed(s, e), Ack, e.taskId, EMPTY.(ackSeq := Some(e.num), reconnected := true), None);
  }

  lemma ResumeServes(s: ServerSide, e: Envelope)
    requires ServerOk(s) && e.mtype == Reconnect && e.payload.version >= s.minVersion && s.known
    ensures Serves(s, OnReconnect(s, e), Some(e.num)) && OnReconnect(s, e).s.runnerLog == Insert(s.runnerLog, e)
    ensures OnReconnect(s, e).out == ListAfter(s.serverLog, e.payload.lastSeq) + [Welcome(s, e)]
    ensures OnReconnect(s, e).s.serverLog == s.serverLog + [Welcome(s, e)]
  {
    ResumeParts(s, e);
    AnsweredServes(s, e);
    ReplayContents(s.serverLog, e.payload.lastSeq);
    ReplayServes(s, Resumed(s, e), Answered(s, e), ListAfter(s.serverLog, e.payload.lastSeq), Some(e.num));
  }

  /** The answer that completes an accepted Reconnect. */
  function Welcome(s: ServerSide, e: Envelope): Envelope {
    Envelope(MaxSeq(s.serverLog) + 1, Ack, e.taskId, EMPTY.(ackSeq := Some(e.num), reconnected := true))
  }

  /** Answering the first message of a session. */
  lemma HelloServes(s: ServerSide, e: Envelope)
    requires ServerOk(s)
    ensures Serves(s, OnHello(s, e), if e.mtype == Reconnect then Some(e.num) else None)
    ensures OnHello(s, e).s.runnerLog == s.runnerLog || OnHello(s, e).s.runnerLog == Insert(s.runnerLog, e)
  {
    if e.mtype == Register {
      RegisterServes(s, e);
    } else if e.mtype == Reconnect {
      if e.payload.version < s.minVersion {
        RefusalServes(s, e);
      } else if s.known {
        ResumeServes(s, e);
      }
    }
  }

  lemma DecisionServes(s: ServerSide)
    requires ServerOk(s) && s.unsent != []
    ensures Serves(s, SendDecision(s), None)
    ensures var m := SendDecision(s);
            m.s == s.(serverLog := s.serverLog + m.out, unsent := s.unsent[1..])
            && |m.out| == 1 && m.out[0].mtype == PermissionResult
  {
    LogServes(s, PermissionResult, Some(s.unsent[0].task), Verdict(s.unsent[0]), None);
  }

  lemma {:induction false} DecisionsServe(s: ServerSide)
    requires ServerOk(s)
    ensures Serves(s, SendDecisions(s), None)
    ensures SendDecisions(s).s == s.(serverLog := s.serverLog + SendDecisions(s).out, unsent := [])
    ensures forall e | e in SendDecisions(s).out :: e.mtype == PermissionResult
    decreases |s.unsent|
  {
    if s.unsent == [] {
      assert s.serverLog + [] == s.serverLog;
    } else {
      var m := SendDecision(s);
      DecisionServes(s);
      DecisionsServe(m.s);
      ServesCompose(s, m, SendDecisions(m.s));
      Regroup(s.serverLog, m.out, SendDecisions(m.s).out);
    }
  }

  lemma ControlServes(s: ServerSide, r: RunnerId, cfg: Settings, c: Choice)
    requires ServerOk(s) && Possible(s.store, r, c)
    ensures Serves(s, Control(s, r, cfg, c), None)
    ensures Control(s, r, cfg, c).s.serverLog == s.serverLog + Control(s, r, cfg, c).out
    ensures Control(s, r, cfg, c).s.session == s.session && Control(s, r, cfg, c).s.runnerLog == s.runnerLog
    ensures forall e | e in Control(s, r, cfg, c).out :: e.mtype == CancelTask || e.mtype == TaskAssign
  {
    if c.active.Some? {
      var cancelSent := s.cancelSent + {c.active.value};
      BookedServes(s, s.(cancelSent := cancelSent), CancelTask, c.active, EMPTY);
    } else {
      var leased := LeaseJob(s.store, RunnerTarget(r), RunnerOwner(r), cfg.leaseSeconds, c.claim);
      if c.claim.Some? {
        BookedServes(s, s.(store := SetStatus(leased, c.claim.value, Assigned)), TaskAssign, c.claim,
                     EMPTY.(task := c.claim.value));
      }
    }
  }

  /** A message logged after a change of the tables alone. */
  lemma BookedServes(s: ServerSide, s1: ServerSide, t: MessageType, task: Option<TaskId>, payload: Payload)
    requires ServerOk(s) && payload.ackSeq.None?
    requires s1 == s.(store := s1.store, cancelSent := s1.cancelSent)
    ensures var m := Log(s1, t, task, payload);
            && Serves(s, m, None) && m.s.serverLog == s.serverLog + m.out
            && m.s.session == s.session && m.s.runnerLog == s.runnerLog
            && forall e | e in m.out :: e.mtype == t
  {
    LogServes(s1, t, task, payload, None);
    ServesFrame(s, s1, Log(s1, t, task, payload), None);
  }

  lemma ServesCompose(s: ServerSide, m1: Reply, m2: Reply)
    requires Serves(s, m1, None) && Serves(m1.s, m2, None)
    requires m2.s.runnerLog == m1.s.runnerLog
    ensures Serves(s, Reply(m2.s, m1.out + m2.out), None)
  {
    forall i, k | |s.serverLog| <= i < |m2.s.serverLog| && IsAckFor(m2.s.serverLog[i], k)
      ensures Recorded(m2.s.runnerLog, k)
    {
      if i < |m1.s.serverLog| {
        assert m2.s.serverLog[i] == m1.s.serverLog[i];
        assert IsAckFor(m1.s.serverLog[i], k);
      }
    }
  }

  /** A pass sends the permission results and then the control message, from the swept tables. */
  lemma DispatchParts(s: ServerSide, r: RunnerId, cfg: Settings, c: Choice)
    requires ServerOk(s) && Possible(Sweep(s, r).store, r, c)
    ensures var m := SendDecisions(Sweep(s, r));
            && ServerOk(m.s) && Possible(m.s.store, r, c)
            && Serves(Sweep(s, r), m, None)
            && m.s.serverLog == s.serverLog + m.out && m.s.runnerLog == s.runnerLog && m.s.session == s.session
            && (forall e | e in m.out :: e.mtype == PermissionResult)
            && Dispatch(s, r, cfg, c) == Reply(Control(m.s, r, cfg, c).s, m.out + Control(m.s, r, cfg, c).out)
  {
    DecisionsServe(Sweep(s, r));
    DecisionsFrame(Sweep(s, r));
  }

  /** Sending control messages. */
  lemma DispatchServes(s: ServerSide, r: RunnerId, cfg: Settings, c: Choice)
    requires ServerOk(s) && Possible(Sweep(s, r).store, r, c)
    ensures Serves(s, Dispatch(s, r, cfg, c), None)
    ensures Dispatch(s, r, cfg, c).s.serverLog == s.serverLog + Dispatch(s, r, cfg, c).out
    ensures Dispatch(s, r, cfg, c).s.session == s.session && Dispatch(s, r, cfg, c).s.runnerLog == s.runnerLog
    ensures forall e | e in Dispatch(s, r, cfg, c).out ::
              e.mtype == PermissionResult || e.mtype == CancelTask || e.mtype == TaskAssign
  {
    DispatchParts(s, r, cfg, c);
    var m := SendDecisions(Sweep(s, r));
    var k := Control(m.s, r, cfg, c);
    ControlServes(m.s, r, cfg, c);
    ServesCompose(Sweep(s, r), m, k);
    ServesFrame(s, Sweep(s, r), Reply(k.s, m.out + k.out), None);
    Regroup(s.serverLog, m.out, k.out);
  }

  // ---------------------------------------------------------------- the invariant

  /** Every application message numbered so far is pending at the runner or recorded at the server. */
  ghost predicate NothingLost(w: World) {
    forall k | AppNumber(w.r.issued, k) :: k in w.r.p.pending || Recorded(w.s.runnerLog, k)
  }

  /** Every acknowledgement the server ever logged names a recorded message, or a Reconnect it refused. */
  ghost predicate AcksJustified(w: World) {
    forall i, k | 0 <= i < |w.s.serverLog| && IsAckFor(w.s.serverLog[i], k) ::
      Recorded(w.s.runnerLog, k) || Refuses(w, w.s.serverLog[i], k)
  }

  /** A refusal of the Reconnect numbered k. */
  ghost predicate Refuses(w: World, e: Envelope, k: int) {
    IsRejection(e) && 1 <= k <= |w.r.issued| && w.r.issued[k - 1].mtype == Reconnect
  }

  ghost predicate Delivers(w: World) {
    && RunnerOk(w.r)
    && ServerOk(w.s)
    && AllIssued(w.r.issued, w.s.runnerLog)
    && AllIssued(w.r.issued, w.toServer)
    && (forall e | e in w.toRunner :: e in w.s.serverLog)
    && NothingLost(w)
    && AcksJustified(w)
  }

  lemma RunnerMoveKeeps(w: World, m: Moved, acked: Option<nat>)
    requires Delivers(w) && Moves(w.r, m, acked)
    requires acked.Some? ==> exists e :: e in w.s.serverLog && e.payload.ackSeq == acked
    ensures Delivers(RunnerMove(w, m))
  {
    var w' := RunnerMove(w, m);
    forall k | AppNumber(w'.r.issued, k) ensures k in w'.r.p.pending || Recorded(w'.s.runnerLog, k) {
      if k <= |w.r.issued| {
        assert AppNumber(w.r.issued, k);
        if k in w.r.p.pending {
          assert Issued(w.r.issued, w.r.p.pending[k]);
          if acked == Some(k) {
            var e :| e in w.s.serverLog && e.payload.ackSeq == acked;
            var i :| 0 <= i < |w.s.serverLog| && w.s.serverLog[i] == e;
            assert IsAckFor(w.s.serverLog[i], k);
          }
        }
      }
    }
    forall i, k | 0 <= i < |w'.s.serverLog| && IsAckFor(w'.s.serverLog[i], k)
      ensures Recorded(w'.s.runnerLog, k) || Refuses(w', w'.s.serverLog[i], k)
    {
    }
  }

  lemma RecordedGrows(rows: seq<Envelope>, more: seq<Envelope>, k: int)
    requires rows <= more && Recorded(rows, k)
    ensures Recorded(more, k)
  {
    var i :| 0 <= i < |rows| && rows[i].num == k;
    assert more[i].num == k;
  }

  lemma ServerMoveKeeps(w: World, m: Reply, e: Envelope, hello: Option<int>)
    requires Delivers(w) && Serves(w.s, m, hello) && Issued(w.r.issued, e)
    requires m.s.runnerLog == w.s.runnerLog || m.s.runnerLog == Insert(w.s.runnerLog, e)
    requires hello.Some? ==> hello.value == e.num && e.mtype == Reconnect
    ensures Delivers(ServerMove(w, m))
  {
    var w' := ServerMove(w, m);
    forall k | AppNumber(w'.r.issued, k) ensures k in w'.r.p.pending || Recorded(w'.s.runnerLog, k) {
      assert AppNumber(w.r.issued, k);
      if k !in w.r.p.pending { RecordedGrows(w.s.runnerLog, m.s.runnerLog, k); }
    }
    forall i, k | 0 <= i < |w'.s.serverLog| && IsAckFor(w'.s.serverLog[i], k)
      ensures Recorded(w'.s.runnerLog, k) || Refuses(w', w'.s.serverLog[i], k)
    {
      if i < |w.s.serverLog| {
        assert w.s.serverLog[i] == w'.s.serverLog[i];
        assert IsAckFor(w.s.serverLog[i], k);
        if Recorded(w.s.runnerLog, k) { RecordedGrows(w.s.runnerLog, m.s.runnerLog, k); }
      }
    }
    forall x | x in w'.toRunner ensures x in w'.s.serverLog {
    }
  }

  lemma ServerReceiveKeeps(w: World, active: Option<TaskId>)
    requires Delivers(w) && Enabled(w, ServerReceive(active))
    ensures Delivers(Next(w, ServerReceive(active)))
  {
    var e := w.toServer[0];
    var rest := w.(toServer := w.toServer[1..]);
    assert Delivers(rest);
    if w.s.session == Waiting {
      HelloServes(w.s, e);
      ServerMoveKeeps(rest, OnHello(w.s, e), e, if e.mtype == Reconnect then Some(e.num) else None);
    } else {
      HandleServes(w.s, e, w.id, w.cfg, active);
      ServerMoveKeeps(rest, Handle(w.s, e, w.id, w.cfg, active), e, None);
    }
  }

  lemma DispatchKeeps(w: World, c: Choice)
    requires Delivers(w) && Enabled(w, ServerDispatch(c))
    ensures Delivers(Next(w, ServerDispatch(c)))
  {
    DispatchServes(w.s, w.id, w.cfg, c);
    var m := Dispatch(w.s, w.id, w.cfg, c);
    var w' := ServerMove(w, m);
    forall i, k | 0 <= i < |w'.s.serverLog| && IsAckFor(w'.s.serverLog[i], k)
      ensures Recorded(w'.s.runnerLog, k) || Refuses(w', w'.s.serverLog[i], k)
    {
      if i < |w.s.serverLog| {
        assert w.s.serverLog[i] == w'.s.serverLog[i];
        assert IsAckFor(w.s.serverLog[i], k);
      }
    }
  }

  lemma HandlerFailsKeeps(w: World, done: bool, active: Option<TaskId>)
    requires Delivers(w) && Enabled(w, HandlerFails(done, active))
    ensures Delivers(Next(w, HandlerFails(done, active)))
  {
    var e := w.toServer[0];
    var rest, s' := w.(toServer := w.toServer[1..]), FailToHandle(w.s, e, w.id, w.cfg, active, done);
    assert e in w.toServer && Delivers(rest);
    FailureServes(w.s, e, w.id, w.cfg, active, done);
    ServerMoveKeeps(rest, Reply(s', []), e, None);
    FailureMoves(w, rest, done, active);
  }

  lemma FailureServes(s: ServerSide, e: Envelope, r: RunnerId, cfg: Settings, active: Option<TaskId>, done: bool)
    requires ServerOk(s)
    ensures var s' := FailToHandle(s, e, r, cfg, active, done);
            && Serves(s, Reply(s', []), None) && s'.runnerLog == Insert(s.runnerLog, e) && s'.session == Closed
            && s'.serverLog == s.serverLog && s'.known == s.known && s'.unsent == s.unsent && s'.decided == s.decided
  {
    RecordServes(s, FailToHandle(s, e, r, cfg, active, done), e);
  }

  lemma FailureMoves(w: World, rest: World, done: bool, active: Option<TaskId>)
    requires Enabled(w, HandlerFails(done, active)) && rest == w.(toServer := w.toServer[1..])
    ensures Next(w, HandlerFails(done, active))
            == ServerMove(rest, Reply(FailToHandle(w.s, w.toServer[0], w.id, w.cfg, active, done), []))
  {
    assert w.toRunner + [] == w.toRunner;
  }

  lemma HelloFailureServes(s: ServerSide, e: Envelope, upserted: bool, replayed: nat)
    requires ServerOk(s)
    ensures var m := FailToAnswer(s, e, upserted, replayed);
            && Serves(s, m, None) && (m.s.runnerLog == s.runnerLog || m.s.runnerLog == Insert(s.runnerLog, e))
            && m.s.serverLog == s.serverLog && m.s.session == Closed && (s.known ==> m.s.known)
            && m.s.unsent == s.unsent && m.s.decided == s.decided && m.s.dropped == s.dropped && m.s.begun == s.begun
  {
    var m := FailToAnswer(s, e, upserted, replayed);
    if e.mtype == Register || e.mtype == Reconnect {
      RecordServes(s, Note(s, e), e);
      FirstsAreLogged(s.serverLog, e.payload.lastSeq, replayed);
    }
    PartServes(s, m);
  }

  lemma FirstsAreLogged(rows: seq<Envelope>, lastSeq: nat, n: nat)
    ensures forall x | x in Firsts(ListAfter(rows, lastSeq), n) :: x in rows
  {
    ReplayContents(rows, lastSeq);
  }

  /** Sending logged rows again serves as well as sending nothing. */
  lemma PartServes(s: ServerSide, m: Reply)
    requires ServerOk(m.s) && s.runnerLog <= m.s.runnerLog && m.s.serverLog == s.serverLog
    requires forall x | x in m.out :: x in s.serverLog
    ensures Serves(s, m, None)
  {
  }

  lemma HelloFailsKeeps(w: World, upserted: bool, replayed: nat)
    requires Delivers(w) && Enabled(w, HelloFails(upserted, replayed))
    ensures Delivers(Next(w, HelloFails(upserted, replayed)))
  {
    var e := w.toServer[0];
    var rest := w.(toServer := w.toServer[1..]);
    assert e in w.toServer && Delivers(rest);
    HelloFailureServes(w.s, e, upserted, replayed);
    ServerMoveKeeps(rest, FailToAnswer(w.s, e, upserted, replayed), e, None);
  }

  lemma DecisionFailsKeeps(w: World)
    requires Delivers(w) && Enabled(w, DecisionFails)
    ensures Delivers(Next(w, DecisionFails))
    ensures Next(w, DecisionFails).s.serverLog == w.s.serverLog + SendDecision(w.s).out
  {
    DecisionServes(w.s);
    var w' := Next(w, DecisionFails);
    forall i, k | 0 <= i < |w'.s.serverLog| && IsAckFor(w'.s.serverLog[i], k)
      ensures Recorded(w'.s.runnerLog, k) || Refuses(w', w'.s.serverLog[i], k)
    {
      if i < |w.s.serverLog| {
        assert w.s.serverLog[i] == w'.s.serverLog[i];
        assert IsAckFor(w.s.serverLog[i], k);
      }
    }
  }

  lemma TakenKeeps(w: World)
    requires Delivers(w) && w.toRunner != []
    ensures Delivers(w.(toRunner := w.toRunner[1..]))
    ensures w.toRunner[0] in w.s.serverLog
  {
    assert w.toRunner[0] in w.toRunner;
    var rest := w.(toRunner := w.toRunner[1..]);
    assert NothingLost(w) && AcksJustified(w) && NothingLost(rest) && AcksJustified(rest);
  }

  lemma RunnerReceiveKeeps(w: World)
    requires Delivers(w) && Enabled(w, RunnerReceive)
    ensures Delivers(Next(w, RunnerReceive))
  {
    var e := w.toRunner[0];
    TakenKeeps(w);
    BeginMoves(w.r, e);
    RunnerMoveKeeps(w.(toRunner := w.toRunner[1..]), Begin(w.r, e), e.payload.ackSeq);
    HandlingFree(RunnerMove(w.(toRunner := w.toRunner[1..]), Begin(w.r, e)), Some(e));
  }

  /** The invariant does not look at what is being handled. */
  lemma HandlingFree(w: World, handling: Option<Envelope>)
    requires Delivers(w)
    ensures Delivers(w.(handling := handling))
  {
    var w' := w.(handling := handling);
    assert NothingLost(w) && AcksJustified(w) && NothingLost(w') && AcksJustified(w');
  }

  lemma FinishedMoves(r: RunnerSide, e: Envelope)
    requires RunnerOk(r)
    ensures Moves(r, Finished(r, e), None)
  {
    FlushMoves(r, e);
  }

  lemma RunnerMarkKeeps(w: World)
    requires Delivers(w) && Enabled(w, RunnerMark)
    ensures Delivers(Next(w, RunnerMark))
  {
    var e := w.handling.value;
    FinishedMoves(w.r, e);
    RunnerMoveKeeps(w, Finished(w.r, e), None);
    var w1 := RunnerMove(w, Finished(w.r, e));
    MarkMoves(w1.r, e);
    RunnerMoveKeeps(w1, Moved(Mark(w1.r, e), []), None);
    assert w1.toServer + [] == w1.toServer;
    HandlingFree(RunnerMove(w1, Moved(Mark(w1.r, e), [])), None);
  }

  lemma RestartedFrame(r: RunnerSide, version: nat)
    requires RunnerOk(r)
    ensures Restarted(r, version).p == r.p && RunnerOk(Restarted(r, version))
  {
    SaveLoadRoundTrip(r.p);
  }

  /** A new process with what is left on its way to the server. */
  lemma RestartedKeeps(w: World, version: nat, keep: nat)
    requires Delivers(w) && keep <= |w.toServer|
    ensures Delivers(w.(r := Restarted(w.r, version), toServer := w.toServer[..keep], toRunner := [], handling := None))
  {
    RestartedFrame(w.r, version);
    var w' := w.(r := Restarted(w.r, version), toServer := w.toServer[..keep], toRunner := [], handling := None);
    assert NothingLost(w) && AcksJustified(w) && NothingLost(w') && AcksJustified(w');
  }

  lemma RestartKeeps(w: World, version: nat)
    requires Delivers(w)
    ensures Next(w, Restart(version)).r.p == w.r.p
    ensures Delivers(Next(w, Restart(version)))
  {
    RestartedFrame(w.r, version);
    RestartedKeeps(w, version, |w.toServer|);
    assert w.toServer[..|w.toServer|] == w.toServer;
  }

  /** Dying inside a handler, whatever it had saved and sent by then. */
  lemma CrashKeeps(w: World, step: Step)
    requires Delivers(w) && step.Crash? && Enabled(w, step)
    ensures Delivers(Next(w, step))
  {
    var e := w.toRunner[0];
    var m := CutShort(w.r, e, step.cut);
    TakenKeeps(w);
    CutMoves(w.r, e, step.cut);
    var w1 := RunnerMove(w.(toRunner := w.toRunner[1..]), m);
    RunnerMoveKeeps(w.(toRunner := w.toRunner[1..]), m, e.payload.ackSeq);
    RestartedKeeps(w1, step.upgrade, step.keep);
  }

  lemma ConnectKeeps(w: World)
    requires Delivers(w) && Enabled(w, Connect)
    ensures Delivers(Next(w, Connect))
  {
    OpenMoves(w.r);
    var clean := w.(toServer := [], toRunner := [], s := w.s.(session := Waiting, cancelSent := {}));
    assert Delivers(clean) by {
      assert NothingLost(w) && AcksJustified(w);
      assert NothingLost(clean) && AcksJustified(clean);
    }
    RunnerMoveKeeps(clean, Open(w.r), None);
    assert [] + Open(w.r).out == Open(w.r).out;
  }

  /** Every step of the protocol keeps the delivery invariant. */
  lemma StepKeepsDelivery(w: World, step: Step)
    requires Delivers(w) && Enabled(w, step)
    ensures Delivers(Next(w, step))
  {
    match step
    case AppSend(t, task, payload) =>
      SendMoves(w.r, t, task, payload);
      RunnerMoveKeeps(w, Send(w.r, t, task, payload), None);
    case Connect => ConnectKeeps(w);
    case ServerReceive(active) => ServerReceiveKeeps(w, active);
    case HandlerFails(done, active) => HandlerFailsKeeps(w, done, active);
    case HelloFails(upserted, replayed) => HelloFailsKeeps(w, upserted, replayed);
    case ServerDispatch(c) => DispatchKeeps(w, c);
    case DecisionFails => DecisionFailsKeeps(w);
    case RunnerReceive => RunnerReceiveKeeps(w);
    case RunnerMark => RunnerMarkKeeps(w);
    case Restart(version) => RestartKeeps(w, version);
    case Crash(_, _, _) => CrashKeeps(w, step);
    case _ =>
      var w' := Next(w, step);
      assert NothingLost(w) && AcksJustified(w);
      assert NothingLost(w') && AcksJustified(w');
  }

  lemma {:induction false} RunKeepsDelivery(w: World, steps: seq<Step>)
    requires Delivers(w) && Runs(w, steps)
    ensures Delivers(After(w, steps))
    decreases |steps|
  {
    if steps != [] {
      StepKeepsDelivery(w, steps[0]);
      RunKeepsDelivery(Next(w, steps[0]), steps[1..]);
    }
  }

  // ---------------------------------------------------------------- what it means for whole runs

  lemma {:induction false} AppRowsContents(rows: seq<Envelope>)
    requires Unique(rows)
    ensures forall e :: e in AppRows(rows) <==> e in rows && IsApplication(e.mtype)
    ensures Unique(AppRows(rows))
  {
    if rows != [] {
      var front := rows[..|rows| - 1];
      var last := rows[|rows| - 1];
      AppRowsContents(front);
      assert rows == front + [last];
      forall i | 0 <= i < |AppRows(front)| ensures AppRows(front)[i].num != last.num {
        assert AppRows(front)[i] in front;
      }
    }
  }

  lemma InitialDelivers(w: World)
    requires Initial(w)
    ensures Delivers(w)
  {
  }

  /** The handler of an application message that is no longer pending has begun its effect. */
  lemma GoneMeansBegun(w: World, k: nat)
    requires Delivers(w) && AppNumber(w.r.issued, k) && k !in w.r.p.pending
    ensures w.r.issued[k - 1] in w.s.begun
  {
    AppRowsContents(w.s.runnerLog);
    var i :| 0 <= i < |w.s.runnerLog| && w.s.runnerLog[i].num == k;
    assert w.s.runnerLog[i] in w.s.runnerLog;
    assert Issued(w.r.issued, w.s.runnerLog[i]);
  }

  lemma ReachableDelivers(w: World)
    requires Reachable(w)
    ensures Delivers(w)
  {
    var w0, steps :| Initial(w0) && Runs(w0, steps) && After(w0, steps) == w;
    InitialDelivers(w0);
    RunKeepsDelivery(w0, steps);
  }

  /** Only recorded application messages are dropped. */
  ghost predicate DroppedOk(s: ServerSide) {
    forall e | e in s.dropped :: e in s.begun
  }

  /** The failure of a handler hits an application message that is new to the server. */
  ghost function Drops(w: World, step: Step): nat
    requires Enabled(w, step)
  {
    if step.HandlerFails? && !step.done && StartsEffect(w.s, w.toServer[0]) then 1 else 0
  }

  ghost function DropsIn(w: World, steps: seq<Step>): nat
    requires Runs(w, steps)
    decreases |steps|
  {
    if steps == [] then 0 else Drops(w, steps[0]) + DropsIn(Next(w, steps[0]), steps[1..])
  }

  /** Answers neither drop a message nor forget what has begun. */
  lemma AnswersDropNothing(s: ServerSide, e: Envelope, r: RunnerId, cfg: Settings, active: Option<TaskId>)
    ensures OnHello(s, e).s.dropped == s.dropped && OnHello(s, e).s.begun == s.begun
    ensures Handle(s, e, r, cfg, active).s.dropped == s.dropped && s.begun <= Handle(s, e, r, cfg, active).s.begun
    ensures StartsEffect(s, e) ==> e in Handle(s, e, r, cfg, active).s.begun
  {
  }

  lemma NewIsNotBegun(s: ServerSide, e: Envelope)
    requires ServerOk(s) && StartsEffect(s, e)
    ensures e !in s.begun
  {
    AppRowsContents(s.runnerLog);
  }

  lemma FailureDrops(s: ServerSide, e: Envelope, r: RunnerId, cfg: Settings, active: Option<TaskId>, done: bool)
    requires ServerOk(s) && DroppedOk(s)
    ensures var s' := FailToHandle(s, e, r, cfg, active, done);
            && DroppedOk(s') && s.dropped <= s'.dropped
            && s'.dropped == s.dropped + (if StartsEffect(s, e) && !done then {e} else {})
            && (StartsEffect(s, e) ==> e !in s.dropped)
  {
    if StartsEffect(s, e) { NewIsNotBegun(s, e); }
  }

  lemma StepDrops(w: World, step: Step)
    requires Delivers(w) && DroppedOk(w.s) && Enabled(w, step)
    ensures var s' := Next(w, step).s;
            && DroppedOk(s') && w.s.dropped <= s'.dropped && |s'.dropped| == |w.s.dropped| + Drops(w, step)
            && (Drops(w, step) == 0 ==> s'.dropped == w.s.dropped)
  {
    if step.HandlerFails? {
      FailureDrops(w.s, w.toServer[0], w.id, w.cfg, step.active, step.done);
    } else {
      StepDropsNothing(w, step);
    }
  }

  lemma StepDropsNothing(w: World, step: Step)
    requires Enabled(w, step) && !step.HandlerFails?
    ensures Next(w, step).s.dropped == w.s.dropped && w.s.begun <= Next(w, step).s.begun
  {
    match step
    case ServerReceive(active) => AnswersDropNothing(w.s, w.toServer[0], w.id, w.cfg, active);
    case HelloFails(_, _) =>
    case ServerDispatch(c) => DispatchDropsNothing(w.s, w.id, w.cfg, c);
    case _ =>
  }

  lemma DispatchDropsNothing(s: ServerSide, r: RunnerId, cfg: Settings, c: Choice)
    requires Possible(Sweep(s, r).store, r, c)
    ensures Dispatch(s, r, cfg, c).s.dropped == s.dropped && Dispatch(s, r, cfg, c).s.begun == s.begun
  {
    DecisionsFrame(Sweep(s, r));
  }

  lemma {:induction false} RunDrops(w: World, steps: seq<Step>)
    requires Delivers(w) && DroppedOk(w.s) && Runs(w, steps)
    ensures var s' := After(w, steps).s;
            DroppedOk(s') && w.s.dropped <= s'.dropped && |s'.dropped| == |w.s.dropped| + DropsIn(w, steps)
    decreases |steps|
  {
    if steps != [] {
      StepDrops(w, steps[0]);
      StepKeepsDelivery(w, steps[0]);
      RunDrops(Next(w, steps[0]), steps[1..]);
    }
  }

  lemma ReachableDropped(w: World)
    requires Reachable(w)
    ensures DroppedOk(w.s)
  {
    var w0, steps :| Initial(w0) && Runs(w0, steps) && After(w0, steps) == w;
    InitialDelivers(w0);
    RunDrops(w0, steps);
  }

  /** In every reachable state a handler that does not fail completes the effect of a new message. */
  lemma HandledHasEffect(w: World, active: Option<TaskId>)
    requires Reachable(w) && Enabled(w, ServerReceive(active)) && w.s.session == Live
    requires StartsEffect(w.s, w.toServer[0])
    ensures HadEffect(Next(w, ServerReceive(active)).s, w.toServer[0])
  {
    ReachableDelivers(w);
    ReachableDropped(w);
    NewIsNotBegun(w.s, w.toServer[0]);
    AnswersDropNothing(w.s, w.toServer[0], w.id, w.cfg, active);
  }

  /**
   * The effect of an application message that has left the pending map has run, unless its handler failed; the messages
   * whose effect ran or failed are exactly the recorded application messages; and none began twice.
   */
  ghost predicate AppliedOnce(w: World) {
    && (forall k | AppNumber(w.r.issued, k) && k !in w.r.p.pending ::
          w.r.issued[k - 1] in w.s.dropped || HadEffect(w.s, w.r.issued[k - 1]))
    && (forall e :: HadEffect(w.s, e) || e in w.s.dropped <==> e in w.s.runnerLog && IsApplication(e.mtype))
    && Unique(w.s.begun)
  }

  /**
   * Over every run: no effect of an application message runs twice, and exactly as many are lost for good as handlers
   * failed at a new message; with no such failure every message that left the pending map has had its effect.
   */
  lemma NoMessageLostOrRepeated(w0: World, steps: seq<Step>, w: World)
    requires Initial(w0) && Runs(w0, steps) && w == After(w0, steps)
    ensures AppliedOnce(w) && |w.s.dropped| == DropsIn(w0, steps)
    ensures DropsIn(w0, steps) == 0 <==>
              forall e | e in w.s.runnerLog && IsApplication(e.mtype) :: HadEffect(w.s, e)
  {
    InitialDelivers(w0);
    RunKeepsDelivery(w0, steps);
    RunDrops(w0, steps);
    AppRowsContents(w.s.runnerLog);
    forall k | AppNumber(w.r.issued, k) && k !in w.r.p.pending ensures w.r.issued[k - 1] in w.s.begun {
      GoneMeansBegun(w, k);
    }
    if DropsIn(w0, steps) > 0 {
      var e :| e in w.s.dropped;
      assert e in w.s.runnerLog && IsApplication(e.mtype) && !HadEffect(w.s, e);
    }
  }

  lemma StepExtendsIssued(w: World, step: Step)
    requires Delivers(w) && Enabled(w, step)
    ensures w.r.issued <= Next(w, step).r.issued
  {
    match step
    case AppSend(t, task, payload) => SendMoves(w.r, t, task, payload);
    case Connect => OpenMoves(w.r);
    case RunnerReceive => BeginMoves(w.r, w.toRunner[0]);
    case RunnerMark => FinishedMoves(w.r, w.handling.value);
    case Crash(_, cut, _) => CutMoves(w.r, w.toRunner[0], cut);
    case _ =>
  }

  lemma {:induction false} RunExtendsIssued(w: World, steps: seq<Step>)
    requires Delivers(w) && Runs(w, steps)
    ensures w.r.issued <= After(w, steps).r.issued
    decreases |steps|
  {
    if steps != [] {
      StepExtendsIssued(w, steps[0]);
      StepKeepsDelivery(w, steps[0]);
      RunExtendsIssued(Next(w, steps[0]), steps[1..]);
    }
  }

  /** What a run that goes on from a reachable state leads to. */
  lemma LaterDelivers(past: World, w: World)
    requires Delivers(past) && LeadsTo(past, w)
    ensures Delivers(w) && past.r.issued <= w.r.issued
  {
    var steps :| Runs(past, steps) && After(past, steps) == w;
    RunKeepsDelivery(past, steps);
    RunExtendsIssued(past, steps);
  }

  lemma NumberedWithin(w: World, e: Envelope)
    requires Delivers(w) && (e in w.toServer || e in w.s.runnerLog)
    ensures Issued(w.r.issued, e) && w.r.p.nextSeq > e.num && Load(Readable(Save(w.r.p))).nextSeq > e.num
  {
    SaveLoadRoundTrip(w.r.p);
  }

  /**
   * Across restarts and reconnects a sequence number never stands for two messages: whatever is on the wire or in the
   * server's log later under a number already given out is the message that number was given to, and the persisted
   * counter is beyond all of them.
   */
  lemma NumbersAreNeverReused(past: World, w: World, e: Envelope)
    requires Reachable(past) && LeadsTo(past, w) && (e in w.toServer || e in w.s.runnerLog)
    ensures e.num < past.r.p.nextSeq ==> 1 <= e.num <= |past.r.issued| && past.r.issued[e.num - 1] == e
    ensures Load(Readable(Save(w.r.p))).nextSeq > e.num
  {
    ReachableDelivers(past);
    LaterDelivers(past, w);
    NumberedWithin(w, e);
  }
}
