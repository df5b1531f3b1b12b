/** The server's messages reach the runner in order, without gap or repetition, across disconnects. */
module ReconnectOrder {
  import opened Common
  import opened Envelopes
  import opened RunnerState
  import opened RunnerTransport
  import opened TaskQueue
  import opened Tables
  import opened MessageLog
  import opened Gateway
  import opened Reconnect
  import opened ReconnectDelivery

  /** xs is a block of consecutive rows of the log, placed by the number of its first row. */
  ghost predicate Block(rows: seq<Envelope>, xs: seq<Envelope>) {
    xs != [] ==> 1 <= xs[0].num && xs[0].num - 1 + |xs| <= |rows| && xs == rows[xs[0].num - 1..xs[0].num - 1 + |xs|]
  }

  ghost function Last(xs: seq<Envelope>): Envelope
    requires xs != []
  {
    xs[|xs| - 1]
  }

  /**
   * What the runner has handled since its registration is one block of the log. Its watermark is the last of them,
   * except that it is behind while a message is being handled.
   */
  ghost predicate HandledOk(w: World) {
    && Block(w.s.serverLog, w.r.handled)
    && (w.r.p.registered <==> w.r.handled != [])
    && w.r.p.lastServerSeq <= |w.s.serverLog|
    && match w.handling
       case None => w.r.handled != [] ==> w.r.p.lastServerSeq == Last(w.r.handled).num
       case Some(e) =>
         && e in w.s.serverLog
         && (w.r.handled != [] ==> e == Last(w.r.handled) && w.r.p.lastServerSeq < e.num)
  }

  /** What is on its way to the runner continues that block; while the session stands it reaches the end of the log. */
  ghost predicate IncomingOk(w: World) {
    && Block(w.s.serverLog, w.toRunner)
    && if w.r.handled != [] then
         && (w.toRunner != [] ==> w.toRunner[0].num == Last(w.r.handled).num + 1)
         && (w.r.linked && w.s.session == Live ==> |w.toRunner| == |w.s.serverLog| - Last(w.r.handled).num)
       else
         && (w.toRunner != [] ==>
               && w.handling.None?
               && w.toRunner[0].mtype == RegisterAck
               && w.toRunner[0].num > w.r.p.lastServerSeq
               && (IsRejection(w.toRunner[0]) ==> |w.toRunner| == 1))
         && (w.r.linked && w.s.session == Live ==>
               && w.toRunner != [] && !IsRejection(w.toRunner[0])
               && w.toRunner[0].num - 1 + |w.toRunner| == |w.s.serverLog|)
  }

  /** The first message the runner sends from this state. */
  predicate HelloAt(p: ProtoState, e: Envelope) {
    if p.registered then e.mtype == Reconnect && e.payload.lastSeq == p.lastServerSeq else e.mtype == Register
  }

  /** Until the server has seen the first message of a session, that message is all there is on the connection. */
  ghost predicate OpeningOk(w: World) {
    w.s.session == Waiting ==>
      && w.toRunner == [] && w.handling.None?
      && (w.r.linked ==> !w.r.ready && |w.toServer| == 1 && w.toServer[0].payload.version == w.r.version)
      && (w.toServer != [] ==> |w.toServer| == 1 && HelloAt(w.r.p, w.toServer[0]))
  }

  ghost predicate Order(w: World) {
    HandledOk(w) && IncomingOk(w) && OpeningOk(w)
  }

  /** A Reconnect refused for its version while the log holds messages beyond the runner's watermark. */
  ghost predicate Skips(w: World, step: Step) {
    && step.ServerReceive? && w.s.session == Waiting && w.toServer != []
    && w.toServer[0].mtype == Reconnect
    && w.toServer[0].payload.version < w.s.minVersion
    && w.toServer[0].payload.lastSeq < |w.s.serverLog|
  }

  /** The process dies after a message of the registered runner was handled and before the watermark says so. */
  ghost predicate Forgets(w: World, step: Step)
    requires Enabled(w, step)
  {
    match step
    case Restart(_) => w.handling.Some? && w.r.handled != []
    case Crash(_, _, _) => Noted(w.r, w.toRunner[0]).handled != []
    case _ => false
  }

  // ---------------------------------------------------------------- steps of the runner

  lemma QuietRunnerKeeps(w: World, w': World, out: seq<Envelope>)
    requires Order(w)
    requires w'.s == w.s && w'.toRunner == w.toRunner && w'.handling == w.handling
    requires w'.toServer == w.toServer + out
    requires w'.r.handled == w.r.handled && w'.r.linked == w.r.linked && w'.r.ready == w.r.ready
    requires w'.r.version == w.r.version && w'.r.p.registered == w.r.p.registered
    requires w'.r.p.lastServerSeq == w.r.p.lastServerSeq
    requires !(w.r.ready && w.r.linked) ==> out == []
    requires w.s.session == Waiting ==> w.r.linked || out == []
    ensures Order(w')
  {
  }

  ghost predicate SameBase(r: RunnerSide, r': RunnerSide) {
    && r'.handled == r.handled && r'.linked == r.linked && r'.ready == r.ready && r'.version == r.version
    && r'.p.registered == r.p.registered && r'.p.lastServerSeq == r.p.lastServerSeq
  }

  lemma SendFrame(r: RunnerSide, t: MessageType, task: Option<TaskId>, payload: Payload)
    ensures SameBase(r, Send(r, t, task, payload).r)
  {
  }

  lemma AssignFrame(r: RunnerSide, e: Envelope)
    ensures SameBase(r, OnAssign(r, e).r)
  {
    var m1 := SendAck(r, e);
    SendFrame(r, Ack, e.taskId, EMPTY.(ackSeq := Some(e.num)));
    SendFrame(m1.r, TaskAccepted, Some(e.payload.task), EMPTY);
    var m2 := Send(m1.r, TaskAccepted, Some(e.payload.task), EMPTY);
    assert SameBase(m2.r, OnAssign(r, e).r);
  }

  /** What handling a message leaves alone. */
  lemma BeginFrame(r: RunnerSide, e: Envelope)
    ensures var r' := Begin(r, e).r;
            && r'.handled == Noted(r, e).handled && r'.linked == r.linked && r'.version == r.version
            && r'.p.registered == (r.p.registered || (e.mtype == RegisterAck && e.payload.accepted))
            && r'.p.lastServerSeq == r.p.lastServerSeq
            && (r'.ready <==> r.ready || Readies(e))
            && (r'.stopped <==> r.stopped || IsRejection(e))
  {
    var r0 := AckPayload(Noted(r, e), e);
    assert r0.stopped == r.stopped && SameBase(r.(handled := r0.handled), r0);
    if Readies(e) {
    } else if e.mtype == TaskAssign {
      AssignFrame(r0, e);
    } else if e.mtype == CancelTask || e.mtype == PermissionResult {
      SendFrame(r0, Ack, e.taskId, EMPTY.(ackSeq := Some(e.num)));
    }
  }

  lemma BlockTail(rows: seq<Envelope>, xs: seq<Envelope>)
    requires Dense(rows) && Block(rows, xs) && xs != []
    ensures Block(rows, xs[1..])
    ensures xs[0] == rows[xs[0].num - 1]
    ensures |xs| > 1 ==> xs[1..][0].num == xs[0].num + 1
  {
    var at := xs[0].num;
    if |xs| > 1 {
      assert xs[1] == rows[at];
      assert xs[1..] == rows[at..at + |xs| - 1];
    }
  }

  /** The last row of a block is as far from the first as the block is long. */
  lemma BlockSpan(rows: seq<Envelope>, xs: seq<Envelope>)
    requires Dense(rows) && Block(rows, xs) && xs != []
    ensures Last(xs) == rows[xs[0].num + |xs| - 2]
    ensures Last(xs).num == xs[0].num + |xs| - 1
  {
  }

  lemma BlockSnoc(rows: seq<Envelope>, xs: seq<Envelope>, e: Envelope)
    requires Dense(rows) && Block(rows, xs)
    requires 1 <= e.num <= |rows| && rows[e.num - 1] == e
    requires xs != [] ==> e.num == Last(xs).num + 1
    ensures Block(rows, xs + [e]) && Last(xs + [e]) == e
  {
    if xs == [] {
      assert xs + [e] == [e] == rows[e.num - 1..e.num];
    } else {
      BlockSpan(rows, xs);
      assert xs + [e] == rows[xs[0].num - 1..e.num];
      assert (xs + [e])[0] == xs[0];
    }
  }

  lemma LoggedNumber(rows: seq<Envelope>, e: Envelope)
    requires Dense(rows) && e in rows
    ensures 1 <= e.num <= |rows| && rows[e.num - 1] == e
  {
  }

  /** The runner takes the first incoming message; the watermark follows when it is marked. */
  lemma AdvanceKeeps(w: World, w': World, e: Envelope)
    requires Order(w) && w.s.session != Waiting && w.handling.None? && w.toRunner != [] && e == w.toRunner[0]
    requires Dense(w.s.serverLog) && e in w.s.serverLog
    requires w'.s == w.s && w'.toRunner == w.toRunner[1..] && w'.r.linked == w.r.linked && w'.handling == Some(e)
    requires w'.r.p.registered == (w.r.p.registered || (e.mtype == RegisterAck && e.payload.accepted))
    requires w'.r.handled == if w'.r.p.registered then w.r.handled + [e] else w.r.handled
    requires w'.r.p.lastServerSeq == w.r.p.lastServerSeq
    ensures Order(w')
  {
    BlockTail(w.s.serverLog, w.toRunner);
    if w'.r.p.registered {
      BlockSnoc(w.s.serverLog, w.r.handled, e);
      assert HandledOk(w');
      assert IncomingOk(w');
    } else {
      assert HandledOk(w');
      assert IncomingOk(w');
    }
  }

  lemma ReceiveKeeps(w: World)
    requires Delivers(w) && Order(w) && Enabled(w, RunnerReceive)
    ensures Order(Next(w, RunnerReceive))
  {
    TakenKeeps(w);
    BeginFrame(w.r, w.toRunner[0]);
    AdvanceKeeps(w, Next(w, RunnerReceive), w.toRunner[0]);
  }

  lemma FinishedFrame(r: RunnerSide, e: Envelope)
    ensures SameBase(r, Finished(r, e).r)
  {
    SendFrame(r, Capability, None, EMPTY);
  }

  lemma MarkKeepsOrder(w: World)
    requires Delivers(w) && Order(w) && Enabled(w, RunnerMark)
    ensures Order(Next(w, RunnerMark))
  {
    var w' := Next(w, RunnerMark);
    FinishedFrame(w.r, w.handling.value);
    LoggedNumber(w.s.serverLog, w.handling.value);
    assert w'.r.handled == w.r.handled && w'.r.p.registered == w.r.p.registered;
    assert w'.r.p.lastServerSeq == Max(w.r.p.lastServerSeq, w.handling.value.num);
  }

  // ---------------------------------------------------------------- steps of the server

  /** Rows appended to the log keep every block a block. */
  lemma BlockGrows(rows: seq<Envelope>, more: seq<Envelope>, xs: seq<Envelope>)
    requires rows <= more && Block(rows, xs)
    ensures Block(more, xs)
  {
    if xs != [] {
      assert more[..|rows|] == rows;
      assert more[xs[0].num - 1..xs[0].num - 1 + |xs|] == rows[xs[0].num - 1..xs[0].num - 1 + |xs|];
    }
  }

  lemma BlockAppend(rows: seq<Envelope>, out: seq<Envelope>, xs: seq<Envelope>)
    requires Dense(rows + out) && Block(rows, xs) && out != []
    requires xs != [] ==> xs[0].num - 1 + |xs| == |rows|
    ensures Block(rows + out, xs + out)
    ensures (xs + out)[0].num == |rows| + 1 - |xs|
  {
    if xs == [] {
      assert xs + out == out && out[0] == (rows + out)[|rows|];
      assert out == (rows + out)[|rows|..|rows| + |out|];
    } else {
      assert xs + out == (rows + out)[xs[0].num - 1..xs[0].num - 1 + |xs + out|];
    }
  }

  /** A live session that logs more messages and sends exactly those. */
  lemma LiveServerKeeps(w: World, w0: World, m: Reply)
    requires Order(w) && w.s.session == Live && m.s.session == Live
    requires w0 == w.(toServer := w0.toServer)
    requires m.s.serverLog == w.s.serverLog + m.out && Dense(m.s.serverLog)
    ensures Order(ServerMove(w0, m))
  {
    var w' := ServerMove(w0, m);
    BlockGrows(w.s.serverLog, m.s.serverLog, w.r.handled);
    BlockGrows(w.s.serverLog, m.s.serverLog, w.toRunner);
    if w.r.linked {
      if m.out == [] {
        assert w'.toRunner == w.toRunner;
      } else {
        BlockAppend(w.s.serverLog, m.out, w.toRunner);
      }
    }
  }

  /** The server's answer to the first message of a session. */
  lemma AnswerKeeps(w: World, w': World, out: seq<Envelope>)
    requires Order(w) && w.s.session == Waiting && w'.s.session != Waiting
    requires w'.r.p == w.r.p && w'.r.handled == w.r.handled && w'.handling == w.handling
    requires Dense(w'.s.serverLog) && w.s.serverLog <= w'.s.serverLog
    requires w'.r.linked ==> w.r.linked
    requires w'.toRunner == if w.r.linked then out else []
    requires |out| <= |w'.s.serverLog| && out == w'.s.serverLog[|w'.s.serverLog| - |out|..]
    requires w'.s.session == Live ==> out != [] && (w.r.handled == [] ==> !IsRejection(out[0]))
    requires if w.r.handled != [] then |w'.s.serverLog| - |out| == w.r.p.lastServerSeq || out == []
             else |out| == 1 && out[0].mtype == RegisterAck && |w'.s.serverLog| > |w.s.serverLog|
    ensures Order(w')
  {
    var rows := w'.s.serverLog;
    BlockGrows(w.s.serverLog, rows, w.r.handled);
    assert HandledOk(w');
    if w'.toRunner != [] {
      TailIsBlock(rows, out);
      assert w'.toRunner == out;
    }
    assert Block(rows, w'.toRunner);
    assert IncomingOk(w');
  }

  /** The end of a dense log is a block that starts where it was cut. */
  lemma TailIsBlock(rows: seq<Envelope>, out: seq<Envelope>)
    requires Dense(rows) && 0 < |out| <= |rows| && out == rows[|rows| - |out|..]
    ensures Block(rows, out) && out[0].num == |rows| - |out| + 1
  {
    var at := |rows| - |out|;
    assert out[0] == rows[at] && out == rows[at..at + |out|];
  }

  /** The answer to a Register is one RegisterAck at the end of the log. */
  lemma RegisterIsTail(s: ServerSide, e: Envelope)
    requires ServerOk(s) && e.mtype == Register
    ensures var m := OnRegister(s, e);
            && Dense(m.s.serverLog) && m.s.serverLog == s.serverLog + m.out
            && |m.out| == 1 && m.out[0].mtype == RegisterAck && m.out == m.s.serverLog[|m.s.serverLog| - 1..]
            && m.s.session == (if e.payload.version < s.minVersion then Closed else Live)
            && (m.s.session == Live ==> !IsRejection(m.out[0]))
  {
    RegisterServes(s, e);
    var m := OnRegister(s, e);
    assert m.out == (s.serverLog + m.out)[|s.serverLog|..];
  }

  /** What the answer to a first message leaves. */
  lemma AnsweredNext(w: World, step: Step)
    requires Order(w) && step.ServerReceive? && Enabled(w, step) && w.s.session == Waiting
    ensures var w', m := Next(w, step), OnHello(w.s, w.toServer[0]);
            && w'.s == m.s && w'.r.p == w.r.p && w'.r.handled == w.r.handled && w'.handling == w.handling
            && (w'.r.linked ==> w.r.linked) && w'.toRunner == if w.r.linked then m.out else []
  {
    assert w.toRunner == [];
  }

  lemma RegisterKeeps(w: World, step: Step)
    requires Delivers(w) && Order(w) && step.ServerReceive? && Enabled(w, step)
    requires w.s.session == Waiting && w.toServer[0].mtype == Register
    ensures Order(Next(w, step))
  {
    var m := OnRegister(w.s, w.toServer[0]);
    RegisterIsTail(w.s, w.toServer[0]);
    AnsweredNext(w, step);
    assert w.r.handled == [];
    AnswerKeeps(w, Next(w, step), m.out);
  }

  lemma RefusalKeeps(w: World, step: Step)
    requires Delivers(w) && Order(w) && step.ServerReceive? && Enabled(w, step) && !Skips(w, step)
    requires w.s.session == Waiting && w.toServer[0].mtype == Reconnect
    requires w.toServer[0].payload.version < w.s.minVersion
    ensures Order(Next(w, step))
  {
    RefusalServes(w.s, w.toServer[0]);
    assert w.r.p.lastServerSeq == |w.s.serverLog|;
    AnsweredNext(w, step);
    AnswerKeeps(w, Next(w, step), OnReconnect(w.s, w.toServer[0]).out);
  }

  /** The answer to an accepted Reconnect is the end of the log from the watermark on. */
  lemma ResumeIsTail(s: ServerSide, e: Envelope)
    requires ServerOk(s) && e.mtype == Reconnect && e.payload.version >= s.minVersion && s.known
    requires e.payload.lastSeq <= |s.serverLog|
    ensures var m := OnReconnect(s, e);
            && m.s.session == Live && Dense(m.s.serverLog) && s.serverLog <= m.s.serverLog
            && |m.out| == |m.s.serverLog| - e.payload.lastSeq
            && m.out == m.s.serverLog[e.payload.lastSeq..]
  {
    ResumeServes(s, e);
    DenseReplay(s.serverLog, 0, e.payload.lastSeq);
  }

  lemma ResumeKeeps(w: World, step: Step)
    requires Delivers(w) && Order(w) && step.ServerReceive? && Enabled(w, step)
    requires w.s.session == Waiting && w.toServer[0].mtype == Reconnect
    requires w.toServer[0].payload.version >= w.s.minVersion && w.s.known
    ensures Order(Next(w, step))
  {
    var m := OnReconnect(w.s, w.toServer[0]);
    ResumeIsTail(w.s, w.toServer[0]);
    AnsweredNext(w, step);
    assert m.out != [];
    AnswerKeeps(w, Next(w, step), m.out);
  }

  lemma ServerReceiveKeepsOrder(w: World, step: Step)
    requires Delivers(w) && Order(w) && step.ServerReceive? && Enabled(w, step) && !Skips(w, step)
    ensures Order(Next(w, step))
  {
    var e := w.toServer[0];
    var rest := w.(toServer := w.toServer[1..]);
    if w.s.session == Waiting {
      if e.mtype == Register {
        RegisterKeeps(w, step);
      } else if e.payload.version < w.s.minVersion {
        RefusalKeeps(w, step);
      } else if w.s.known {
        ResumeKeeps(w, step);
      }
    } else {
      HandleServes(w.s, e, w.id, w.cfg, step.active);
      LiveServerKeeps(w, rest, Handle(w.s, e, w.id, w.cfg, step.active));
    }
  }

  lemma DispatchKeepsOrder(w: World, c: Choice)
    requires Delivers(w) && Order(w) && Enabled(w, ServerDispatch(c))
    ensures Order(Next(w, ServerDispatch(c)))
  {
    DispatchServes(w.s, w.id, w.cfg, c);
    LiveServerKeeps(w, w, Dispatch(w.s, w.id, w.cfg, c));
  }

  lemma HandlerFailsKeepsOrder(w: World, step: Step)
    requires Order(w) && step.HandlerFails? && Enabled(w, step)
    ensures Order(Next(w, step))
  {
  }

  /** Whatever part of the replay gets out continues what has been handled. */
  lemma HelloFailsKeepsOrder(w: World, step: Step)
    requires Delivers(w) && Order(w) && step.HelloFails? && Enabled(w, step)
    ensures Order(Next(w, step))
  {
    var e, m := w.toServer[0], FailToAnswer(w.s, w.toServer[0], step.upserted, step.replayed);
    PartIsOfReplay(w.s, e, step.upserted, step.replayed);
    PartKeeps(w, Next(w, step), m.out, e.payload.lastSeq);
  }

  lemma PartIsOfReplay(s: ServerSide, e: Envelope, upserted: bool, replayed: nat)
    requires ServerOk(s)
    ensures var m, at := FailToAnswer(s, e, upserted, replayed), e.payload.lastSeq;
            && m.s.session == Closed && m.s.serverLog == s.serverLog
            && (m.out != [] ==> e.mtype == Reconnect && s.known && e.payload.version >= s.minVersion
                                && at + |m.out| <= |s.serverLog| && m.out == s.serverLog[at..at + |m.out|])
  {
    var m, at := FailToAnswer(s, e, upserted, replayed), e.payload.lastSeq;
    if m.out != [] {
      DenseReplay(s.serverLog, 0, at);
      FirstsOfTail(s.serverLog, at, replayed);
    }
  }

  lemma FirstsOfTail(rows: seq<Envelope>, at: int, n: nat)
    requires 0 <= at <= |rows|
    ensures Firsts(rows[at..], n) == rows[at..at + |Firsts(rows[at..], n)|]
  {
  }

  lemma PartKeeps(w: World, w': World, out: seq<Envelope>, at: int)
    requires Order(w) && w.s.session == Waiting && w'.s.session == Closed && Dense(w.s.serverLog)
    requires w'.r.p == w.r.p && w'.r.handled == w.r.handled && w'.handling == w.handling
    requires w'.s.serverLog == w.s.serverLog && !w'.r.linked
    requires w'.toRunner == if w.r.linked then out else []
    requires out != [] ==> w.r.handled != [] && at == w.r.p.lastServerSeq
    requires out != [] ==> 0 <= at < at + |out| <= |w.s.serverLog| && out == w.s.serverLog[at..at + |out|]
    ensures Order(w')
  {
    if out != [] {
      assert out[0] == w.s.serverLog[at];
    }
  }

  lemma DecisionFailsKeepsOrder(w: World)
    requires Delivers(w) && Order(w) && Enabled(w, DecisionFails)
    ensures Order(Next(w, DecisionFails))
  {
    DecisionFailsKeeps(w);
    var w' := Next(w, DecisionFails);
    BlockGrows(w.s.serverLog, w'.s.serverLog, w.r.handled);
    BlockGrows(w.s.serverLog, w'.s.serverLog, w.toRunner);
  }

  // ---------------------------------------------------------------- all steps

  lemma BlockPrefix(rows: seq<Envelope>, xs: seq<Envelope>, keep: nat)
    requires Block(rows, xs) && keep <= |xs|
    ensures Block(rows, xs[..keep])
  {
  }

  lemma ConnectKeepsOrder(w: World)
    requires Order(w) && Enabled(w, Connect)
    ensures Order(Next(w, Connect))
  {
  }

  lemma DisconnectKeepsOrder(w: World, step: Step)
    requires Order(w) && step.Disconnect? && Enabled(w, step)
    ensures Order(Next(w, step))
  {
    BlockPrefix(w.s.serverLog, w.toRunner, step.keepDown);
  }

  /** A new process, with nothing on its way to it and no session about to be opened. */
  lemma FreshKeepsOrder(w: World, w': World)
    requires Order(w) && (w.handling.Some? ==> w.r.handled == [])
    requires w'.s == w.s && w'.toRunner == [] && w'.handling == None && !w'.r.linked
    requires w'.r.p.registered == w.r.p.registered && w'.r.p.lastServerSeq == w.r.p.lastServerSeq
    requires w'.r.handled == w.r.handled
    requires w.s.session == Waiting ==> w'.toServer == w.toServer
    ensures Order(w')
  {
  }

  lemma RestartKeepsOrder(w: World, version: nat)
    requires Delivers(w) && Order(w) && !Forgets(w, Restart(version))
    ensures Order(Next(w, Restart(version)))
  {
    RestartKeeps(w, version);
    FreshKeepsOrder(w, Next(w, Restart(version)));
  }

  /** What dying inside a handler leaves alone. */
  lemma CutFrame(r: RunnerSide, e: Envelope, cut: nat)
    requires RunnerOk(r)
    ensures var r' := CutShort(r, e, cut).r;
            && RunnerOk(r') && r'.handled == Noted(r, e).handled
            && r'.p.lastServerSeq == r.p.lastServerSeq
            && (r'.p.registered ==> r.p.registered || (e.mtype == RegisterAck && e.payload.accepted))
            && (r.p.registered ==> r'.p.registered)
  {
    CutMoves(r, e, cut);
    SendFrame(AckPayload(Noted(r, e), e), Ack, e.taskId, EMPTY.(ackSeq := Some(e.num)));
  }

  lemma CrashFrame(w: World, step: Step)
    requires Delivers(w) && step.Crash? && Enabled(w, step)
    ensures var w' := Next(w, step);
            && w'.s == w.s && w'.toRunner == [] && w'.handling == None && !w'.r.linked
            && w'.r.p == CutShort(w.r, w.toRunner[0], step.cut).r.p
            && w'.r.handled == Noted(w.r, w.toRunner[0]).handled
  {
    CutFrame(w.r, w.toRunner[0], step.cut);
    RestartedFrame(CutShort(w.r, w.toRunner[0], step.cut).r, step.upgrade);
  }

  lemma CrashKeepsOrder(w: World, step: Step)
    requires Delivers(w) && Order(w) && step.Crash? && Enabled(w, step) && !Forgets(w, step)
    ensures Order(Next(w, step))
  {
    CrashFrame(w, step);
    CutFrame(w.r, w.toRunner[0], step.cut);
    FreshKeepsOrder(w, Next(w, step));
  }

  lemma QuietServerKeeps(w: World, w': World)
    requires Order(w)
    requires w'.r == w.r && w'.handling == w.handling && w'.toServer == w.toServer && w'.toRunner == w.toRunner
    requires w'.s.session == w.s.session && w'.s.serverLog == w.s.serverLog
    ensures Order(w')
  {
  }

  lemma AppSendKeepsOrder(w: World, step: Step)
    requires Order(w) && step.AppSend? && Enabled(w, step)
    ensures Order(Next(w, step))
  {
    SendFrame(w.r, step.t, step.task, step.payload);
    QuietRunnerKeeps(w, Next(w, step), Send(w.r, step.t, step.task, step.payload).out);
  }

  lemma ResendKeepsOrder(w: World, step: Step)
    requires Order(w) && step.Resend? && Enabled(w, step)
    ensures Order(Next(w, step))
  {
    QuietRunnerKeeps(w, Next(w, step), TrySend(w.r, w.r.p.pending[step.num]));
  }

  /** Task bookkeeping touches neither the log nor the watermark. */
  lemma TaskQueueKeepsOrder(w: World, r: RunnerSide)
    requires Order(w) && SameBase(w.r, r)
    ensures Order(w.(r := r))
  {
    assert w.toServer + [] == w.toServer;
    QuietRunnerKeeps(w, w.(r := r), []);
  }

  lemma TaskStepKeepsOrder(w: World, move: BookMove)
    requires Order(w) && Enabled(w, Keep(move))
    ensures Order(Next(w, Keep(move)))
  {
    TaskQueueKeepsOrder(w, w.r.(books := Move(w.r.books, move)));
  }

  /** Every step keeps the order, except a skipping refusal and a process that dies while handling a message. */
  lemma StepKeepsOrder(w: World, step: Step)
    requires Delivers(w) && Order(w) && Enabled(w, step) && !Skips(w, step) && !Forgets(w, step)
    ensures Order(Next(w, step))
  {
    match step
    case AppSend(_, _, _) => AppSendKeepsOrder(w, step);
    case Resend(_) => ResendKeepsOrder(w, step);
    case Keep(move) => TaskStepKeepsOrder(w, move);
    case Connect => ConnectKeepsOrder(w);
    case ServerReceive(_) => ServerReceiveKeepsOrder(w, step);
    case HandlerFails(_, _) => HandlerFailsKeepsOrder(w, step);
    case HelloFails(_, _) => HelloFailsKeepsOrder(w, step);
    case ServerDispatch(c) => DispatchKeepsOrder(w, c);
    case DecisionFails => DecisionFailsKeepsOrder(w);
    case RunnerReceive => ReceiveKeeps(w);
    case RunnerMark => MarkKeepsOrder(w);
    case Disconnect(_, _) => DisconnectKeepsOrder(w, step);
    case Restart(version) => RestartKeepsOrder(w, version);
    case Crash(_, _, _) => CrashKeepsOrder(w, step);
    case Decide(_, _) => QuietServerKeeps(w, Next(w, step));
    case Elsewhere(_, _) => QuietServerKeeps(w, Next(w, step));
  }

  /** No step of the run is a skipping refusal or a death while handling. */
  ghost predicate Orderly(w: World, steps: seq<Step>)
    requires Runs(w, steps)
    decreases |steps|
  {
    steps == [] || (!Skips(w, steps[0]) && !Forgets(w, steps[0]) && Orderly(Next(w, steps[0]), steps[1..]))
  }

  lemma {:induction false} RunKeepsOrder(w: World, steps: seq<Step>)
    requires Delivers(w) && Order(w) && Runs(w, steps) && Orderly(w, steps)
    ensures Order(After(w, steps)) && Delivers(After(w, steps))
    decreases |steps|
  {
    if steps != [] {
      StepKeepsOrder(w, steps[0]);
      StepKeepsDelivery(w, steps[0]);
      RunKeepsOrder(Next(w, steps[0]), steps[1..]);
    }
  }

  /** Some run from the start in which no refusal skipped and no process died while handling leads here. */
  ghost predicate ReachableInOrder(w: World) {
    exists w0, steps :: Initial(w0) && Runs(w0, steps) && Orderly(w0, steps) && After(w0, steps) == w
  }

  /**
   * The handled messages are exactly the rows of the server's log from the one that registered the runner up to the
   * last one handled, each once and in order, and once handling is finished the watermark is the last of them.
   */
  ghost predicate Contiguous(w: World) {
    w.r.handled != [] &&
    var first, last := w.r.handled[0].num, Last(w.r.handled).num;
    && 1 <= first <= last <= |w.s.serverLog|
    && w.r.handled == w.s.serverLog[first - 1..last]
    && (w.handling.None? ==> w.r.p.lastServerSeq == last)
  }

  lemma InOrderFacts(w: World)
    requires ReachableInOrder(w)
    ensures Delivers(w) && Order(w)
  {
    var w0, steps :| Initial(w0) && Runs(w0, steps) && Orderly(w0, steps) && After(w0, steps) == w;
    InitialDelivers(w0);
    RunKeepsOrder(w0, steps);
  }

  /** What a registered runner has handled after any such run. */
  lemma HandledIsContiguous(w: World)
    requires ReachableInOrder(w) && w.r.p.registered
    ensures Contiguous(w)
  {
    InOrderFacts(w);
    BlockSpan(w.s.serverLog, w.r.handled);
  }
}
