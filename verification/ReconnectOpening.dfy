/** How every session opens, in every run: the first message is alone, is answered once, and is never sent again. */
module ReconnectOpening {
  import opened Common
  import opened Envelopes
  import opened RunnerState
  import opened RunnerTransport
  import opened TaskQueue
  import opened Tables
  import opened MessageLog
  import opened Gateway
  import opened Reconnect
  import opened ReconnectDelivery
  import opened ReconnectOrder

  /** What a session's first message finds, and the watermark within the log. */
  ghost predicate Opening(w: World) {
    && OpeningOk(w)
    && w.r.p.lastServerSeq <= |w.s.serverLog|
    && (w.handling.Some? ==> w.handling.value in w.s.serverLog)
  }

  // ---------------------------------------------------------------- one lemma for each kind of step

  /** The runner sends, or keeps its books. */
  lemma RunnerKeepsOpening(w: World, w': World, out: seq<Envelope>)
    requires Opening(w)
    requires w'.s == w.s && w'.toRunner == w.toRunner && w'.handling == w.handling
    requires w'.toServer == w.toServer + out && SameBase(w.r, w'.r)
    requires !(w.r.ready && w.r.linked) ==> out == []
    requires w.s.session == Waiting ==> w.r.linked || out == []
    ensures Opening(w')
  {
  }

  /** A session that is no longer waiting for its first message. */
  lemma AnsweredKeepsOpening(w: World, w': World)
    requires Opening(w) && w'.s.session != Waiting
    requires w.s.serverLog <= w'.s.serverLog && w'.r.p == w.r.p && w'.handling == w.handling
    ensures Opening(w')
  {
  }

  lemma RegisterAnswers(s: ServerSide, e: Envelope)
    requires ServerOk(s) && e.mtype == Register
    ensures OnRegister(s, e).s.session != Waiting && s.serverLog <= OnRegister(s, e).s.serverLog
  {
    RegisterServes(s, e);
  }

  lemma RefusalAnswers(s: ServerSide, e: Envelope)
    requires ServerOk(s) && e.mtype == Reconnect && e.payload.version < s.minVersion
    ensures OnReconnect(s, e).s.session != Waiting && s.serverLog <= OnReconnect(s, e).s.serverLog
  {
    RefusalServes(s, e);
  }

  lemma ResumeAnswers(s: ServerSide, e: Envelope)
    requires ServerOk(s) && e.mtype == Reconnect && e.payload.version >= s.minVersion && s.known
    ensures OnReconnect(s, e).s.session != Waiting && s.serverLog <= OnReconnect(s, e).s.serverLog
  {
    ResumeParts(s, e);
    AnsweredServes(s, e);
  }

  lemma UnknownAnswers(s: ServerSide, e: Envelope)
    requires e.mtype == Reconnect && e.payload.version >= s.minVersion && !s.known
    ensures OnReconnect(s, e) == Reply(s.(session := Closed), [])
  {
  }

  lemma HelloAnswers(s: ServerSide, e: Envelope)
    requires ServerOk(s)
    ensures OnHello(s, e).s.session != Waiting && s.serverLog <= OnHello(s, e).s.serverLog
  {
    if e.mtype == Register {
      RegisterAnswers(s, e);
    } else if e.mtype == Reconnect {
      if e.payload.version < s.minVersion {
        RefusalAnswers(s, e);
      } else if s.known {
        ResumeAnswers(s, e);
      } else {
        UnknownAnswers(s, e);
      }
    }
  }

  lemma ServerReceiveKeepsOpening(w: World, step: Step)
    requires Delivers(w) && Opening(w) && step.ServerReceive? && Enabled(w, step)
    ensures Opening(Next(w, step))
  {
    var e := w.toServer[0];
    if w.s.session == Waiting {
      HelloAnswers(w.s, e);
    } else {
      HandleServes(w.s, e, w.id, w.cfg, step.active);
    }
    AnsweredKeepsOpening(w, Next(w, step));
  }

  lemma DispatchKeepsOpening(w: World, step: Step)
    requires Delivers(w) && Opening(w) && step.ServerDispatch? && Enabled(w, step)
    ensures Opening(Next(w, step))
  {
    DispatchServes(w.s, w.id, w.cfg, step.choice);
    AnsweredKeepsOpening(w, Next(w, step));
  }

  lemma ReceiveKeepsOpening(w: World)
    requires Delivers(w) && Opening(w) && Enabled(w, RunnerReceive)
    ensures Opening(Next(w, RunnerReceive))
  {
    TakenKeeps(w);
    BeginFrame(w.r, w.toRunner[0]);
    assert w.s.session != Waiting;
  }

  lemma MarkKeepsOpening(w: World)
    requires Delivers(w) && Opening(w) && Enabled(w, RunnerMark)
    ensures Opening(Next(w, RunnerMark))
  {
    FinishedFrame(w.r, w.handling.value);
    LoggedNumber(w.s.serverLog, w.handling.value);
    assert w.s.session != Waiting;
  }

  lemma RestartKeepsOpening(w: World, version: nat)
    requires Delivers(w) && Opening(w)
    ensures Opening(Next(w, Restart(version)))
  {
    RestartKeeps(w, version);
  }

  lemma CrashKeepsOpening(w: World, step: Step)
    requires Delivers(w) && Opening(w) && step.Crash? && Enabled(w, step)
    ensures Opening(Next(w, step))
  {
    CrashFrame(w, step);
    CutFrame(w.r, w.toRunner[0], step.cut);
    assert w.s.session != Waiting;
  }

  lemma AppSendKeepsOpening(w: World, step: Step)
    requires Opening(w) && step.AppSend? && Enabled(w, step)
    ensures Opening(Next(w, step))
  {
    SendFrame(w.r, step.t, step.task, step.payload);
    RunnerKeepsOpening(w, Next(w, step), Send(w.r, step.t, step.task, step.payload).out);
  }

  lemma BooksKeepOpening(w: World, r: RunnerSide)
    requires Opening(w) && SameBase(w.r, r)
    ensures Opening(w.(r := r))
  {
    assert w.toServer + [] == w.toServer;
    RunnerKeepsOpening(w, w.(r := r), []);
  }

  /** Every step, in every run, keeps a session's opening in order. */
  lemma StepKeepsOpening(w: World, step: Step)
    requires Delivers(w) && Opening(w) && Enabled(w, step)
    ensures Opening(Next(w, step))
  {
    match step
    case AppSend(_, _, _) => AppSendKeepsOpening(w, step);
    case Resend(num) => RunnerKeepsOpening(w, Next(w, step), TrySend(w.r, w.r.p.pending[num]));
    case Keep(move) => BooksKeepOpening(w, w.r.(books := Move(w.r.books, move)));
    case ServerReceive(_) => ServerReceiveKeepsOpening(w, step);
    case HandlerFails(_, _) => AnsweredKeepsOpening(w, Next(w, step));
    case HelloFails(upserted, replayed) =>
      HelloFailureServes(w.s, w.toServer[0], upserted, replayed);
      AnsweredKeepsOpening(w, Next(w, step));
    case ServerDispatch(_) => DispatchKeepsOpening(w, step);
    case DecisionFails =>
      DecisionFailsKeeps(w);
      AnsweredKeepsOpening(w, Next(w, step));
    case RunnerReceive => ReceiveKeepsOpening(w);
    case RunnerMark => MarkKeepsOpening(w);
    case Restart(version) => RestartKeepsOpening(w, version);
    case Crash(_, _, _) => CrashKeepsOpening(w, step);
    case _ =>
  }

  // ---------------------------------------------------------------- a first message is received once

  ghost predicate NumberOnWire(xs: seq<Envelope>, k: int) {
    exists x :: x in xs && x.num == k
  }

  /**
   * A hello is on its way only until the session is answered and is not recorded before; a Reconnect that was refused
   * is not on its way again and not recorded.
   */
  ghost predicate HelloOnce(w: World) {
    && (forall x | x in w.toServer && IsHello(x.mtype) :: w.s.session == Waiting && !Recorded(w.s.runnerLog, x.num))
    && (forall e, k | e in w.s.serverLog && IsAckFor(e, k) && Refuses(w, e, k) ::
          !Recorded(w.s.runnerLog, k) && !NumberOnWire(w.toServer, k))
  }

  lemma RecordedWasIssued(w: World, k: int)
    requires Delivers(w)
    ensures Recorded(w.s.runnerLog, k) ==> 1 <= k <= |w.r.issued|
  {
    if j :| 0 <= j < |w.s.runnerLog| && w.s.runnerLog[j].num == k {
      assert w.s.runnerLog[j] in w.s.runnerLog && Issued(w.r.issued, w.s.runnerLog[j]);
    }
  }

  /** A number that is acknowledged in the log was given out. */
  lemma AckedWasIssued(w: World, e: Envelope, k: int)
    requires Delivers(w) && e in w.s.serverLog && IsAckFor(e, k)
    ensures 1 <= k <= |w.r.issued|
  {
    var i :| 0 <= i < |w.s.serverLog| && w.s.serverLog[i] == e;
    assert IsAckFor(w.s.serverLog[i], k);
    RecordedWasIssued(w, k);
  }

  /** The runner puts on the wire nothing but what was there and messages that are no hellos. */
  lemma RunnerKeepsHelloOnce(w: World, w': World, out: seq<Envelope>)
    requires Delivers(w) && Delivers(w') && HelloOnce(w)
    requires w'.s == w.s && w.r.issued <= w'.r.issued
    requires forall x | x in w'.toServer :: x in w.toServer || x in out
    requires forall x | x in out :: !IsHello(x.mtype)
    ensures HelloOnce(w')
  {
    forall e, k | e in w'.s.serverLog && IsAckFor(e, k) && Refuses(w', e, k)
      ensures !Recorded(w'.s.runnerLog, k) && !NumberOnWire(w'.toServer, k)
    {
      AckedWasIssued(w, e, k);
      assert Refuses(w, e, k);
      forall x | x in w'.toServer ensures x.num != k {
        assert Issued(w'.r.issued, x);
      }
    }
  }

  /** The server records a message that is no hello and logs answers that refuse nobody. */
  lemma ServerKeepsHelloOnce(w: World, w': World, out: seq<Envelope>)
    requires Delivers(w) && HelloOnce(w) && w.s.session != Waiting
    requires w'.r.issued == w.r.issued
    requires forall x | x in w'.toServer :: x in w.toServer
    requires w'.s.runnerLog == w.s.runnerLog
             || exists x :: x in w.toServer && !IsHello(x.mtype) && w'.s.runnerLog == w.s.runnerLog + [x]
    requires w'.s.serverLog == w.s.serverLog + out
    requires forall x | x in out :: !IsRejection(x)
    ensures HelloOnce(w')
  {
    forall e, k | e in w'.s.serverLog && IsAckFor(e, k) && Refuses(w', e, k)
      ensures !Recorded(w'.s.runnerLog, k) && !NumberOnWire(w'.toServer, k)
    {
      assert e in w.s.serverLog && Refuses(w, e, k);
    }
  }

  /** The answer to the only message on the connection. */
  lemma AnswerKeepsHelloOnce(w: World, w': World, x: Envelope)
    requires Delivers(w) && HelloOnce(w) && w.toServer == [x] && w'.toServer == [] && w'.r.issued == w.r.issued
    requires w'.s.runnerLog == w.s.runnerLog || w'.s.runnerLog == w.s.runnerLog + [x]
    requires w'.s.serverLog == w.s.serverLog
             || exists e :: w'.s.serverLog == w.s.serverLog + [e] && e.payload.ackSeq == Some(x.num)
                            && (IsRejection(e) ==> x.mtype == Register || w'.s.runnerLog == w.s.runnerLog)
    requires IsHello(x.mtype)
    ensures HelloOnce(w')
  {
    assert Issued(w.r.issued, x) && x in w.toServer;
    forall e, k | e in w'.s.serverLog && IsAckFor(e, k) && Refuses(w', e, k)
      ensures !Recorded(w'.s.runnerLog, k) && !NumberOnWire(w'.toServer, k)
    {
      if e in w.s.serverLog {
        assert Refuses(w, e, k) && !NumberOnWire(w.toServer, k);
      }
    }
  }

  lemma HelloParts(s: ServerSide, x: Envelope)
    requires ServerOk(s) && !Recorded(s.runnerLog, x.num)
    ensures var m := OnHello(s, x);
            && (m.s.runnerLog == s.runnerLog || m.s.runnerLog == s.runnerLog + [x])
            && (m.s.serverLog == s.serverLog
                || exists e :: m.s.serverLog == s.serverLog + [e] && e.payload.ackSeq == Some(x.num)
                               && (IsRejection(e) ==> x.mtype == Register || m.s.runnerLog == s.runnerLog))
  {
    var m := OnHello(s, x);
    if x.mtype == Register {
      RegisterServes(s, x);
      assert m.s.serverLog == s.serverLog + [m.out[0]];
    } else if x.mtype == Reconnect {
      if x.payload.version < s.minVersion {
        RefusalServes(s, x);
        assert m.s.serverLog == s.serverLog + [m.out[0]];
      } else if s.known {
        ResumeServes(s, x);
        assert m.s.serverLog == s.serverLog + [Welcome(s, x)];
      }
    }
  }

  lemma ServerReceiveKeepsHelloOnce(w: World, step: Step)
    requires Delivers(w) && Opening(w) && HelloOnce(w) && step.ServerReceive? && Enabled(w, step)
    ensures HelloOnce(Next(w, step))
  {
    var x := w.toServer[0];
    var w' := Next(w, step);
    assert x in w.toServer;
    if w.s.session == Waiting {
      HelloParts(w.s, x);
      AnswerKeepsHelloOnce(w, w', x);
    } else {
      HandleServes(w.s, x, w.id, w.cfg, step.active);
      HandleRefusesNobody(w.s, x, w.id, w.cfg, step.active);
      ServerKeepsHelloOnce(w, w', Handle(w.s, x, w.id, w.cfg, step.active).out);
    }
  }

  lemma HandleRefusesNobody(s: ServerSide, e: Envelope, r: RunnerId, cfg: Settings, active: Option<TaskId>)
    ensures forall x | x in Handle(s, e, r, cfg, active).out :: !IsRejection(x)
  {
  }

  lemma BeginSendsNoHello(r: RunnerSide, e: Envelope)
    ensures forall x | x in Begin(r, e).out :: !IsHello(x.mtype)
  {
  }

  lemma CutSendsNoHello(r: RunnerSide, e: Envelope, cut: nat)
    ensures forall x | x in CutShort(r, e, cut).out :: !IsHello(x.mtype)
  {
  }

  lemma FinishedSendsNoHello(r: RunnerSide, e: Envelope)
    requires RunnerOk(r)
    ensures forall x | x in Finished(r, e).out :: !IsHello(x.mtype)
  {
    FlushedMembers(r);
  }

  /** What one runner step adds to the wire. */
  ghost function Sent(w: World, step: Step): seq<Envelope>
    requires Enabled(w, step)
  {
    match step
    case AppSend(t, task, payload) => Send(w.r, t, task, payload).out
    case Resend(num) => TrySend(w.r, w.r.p.pending[num])
    case RunnerReceive => Begin(w.r, w.toRunner[0]).out
    case RunnerMark => Finished(w.r, w.handling.value).out
    case Crash(_, cut, _) => CutShort(w.r, w.toRunner[0], cut).out
    case _ => []
  }

  lemma SentIsNoHello(w: World, step: Step)
    requires Delivers(w) && Enabled(w, step)
    ensures forall x | x in Sent(w, step) :: !IsHello(x.mtype)
  {
    match step
    case RunnerReceive => BeginSendsNoHello(w.r, w.toRunner[0]);
    case RunnerMark => FinishedSendsNoHello(w.r, w.handling.value);
    case Crash(_, cut, _) => CutSendsNoHello(w.r, w.toRunner[0], cut);
    case _ =>
  }

  predicate IsRunnerStep(step: Step) {
    !(step.Connect? || step.ServerReceive? || step.HandlerFails? || step.HelloFails? || step.ServerDispatch?
      || step.DecisionFails? || step.Decide? || step.Elsewhere?)
  }

  lemma SentOnly(w: World, step: Step)
    requires Enabled(w, step) && IsRunnerStep(step)
    ensures Next(w, step).s == w.s
    ensures forall x | x in Next(w, step).toServer :: x in w.toServer || x in Sent(w, step)
  {
  }

  lemma ConnectKeepsHelloOnce(w: World)
    requires Delivers(w) && HelloOnce(w) && Enabled(w, Connect)
    ensures HelloOnce(Next(w, Connect))
  {
    var w' := Next(w, Connect);
    var x := w'.toServer[0];
    OpenMoves(w.r);
    assert w'.toServer == [x] && x.num == |w.r.issued| + 1;
    RecordedWasIssued(w, x.num);
    forall e, k | e in w'.s.serverLog && IsAckFor(e, k) && Refuses(w', e, k)
      ensures !Recorded(w'.s.runnerLog, k) && !NumberOnWire(w'.toServer, k)
    {
      AckedWasIssued(w, e, k);
      assert Refuses(w, e, k);
    }
  }

  lemma HelloFailsKeepsHelloOnce(w: World, step: Step)
    requires Delivers(w) && Opening(w) && HelloOnce(w) && step.HelloFails? && Enabled(w, step)
    ensures HelloOnce(Next(w, step))
  {
    var x := w.toServer[0];
    assert x in w.toServer;
    AnswerKeepsHelloOnce(w, Next(w, step), x);
  }

  lemma HandlerFailsKeepsHelloOnce(w: World, step: Step)
    requires Delivers(w) && HelloOnce(w) && step.HandlerFails? && Enabled(w, step)
    ensures HelloOnce(Next(w, step))
  {
    assert w.toServer[0] in w.toServer;
    ServerKeepsHelloOnce(w, Next(w, step), []);
  }

  lemma DecisionFailsKeepsHelloOnce(w: World)
    requires Delivers(w) && HelloOnce(w) && Enabled(w, DecisionFails)
    ensures HelloOnce(Next(w, DecisionFails))
  {
    DecisionServes(w.s);
    DecisionFailsKeeps(w);
    ServerKeepsHelloOnce(w, Next(w, DecisionFails), SendDecision(w.s).out);
  }

  lemma DispatchKeepsHelloOnce(w: World, step: Step)
    requires Delivers(w) && HelloOnce(w) && step.ServerDispatch? && Enabled(w, step)
    ensures HelloOnce(Next(w, step))
  {
    DispatchServes(w.s, w.id, w.cfg, step.choice);
    ServerKeepsHelloOnce(w, Next(w, step), Dispatch(w.s, w.id, w.cfg, step.choice).out);
  }

  lemma RunnerStepKeepsHelloOnce(w: World, step: Step)
    requires Delivers(w) && HelloOnce(w) && IsRunnerStep(step) && Enabled(w, step)
    ensures HelloOnce(Next(w, step))
  {
    StepKeepsDelivery(w, step);
    StepExtendsIssued(w, step);
    SentIsNoHello(w, step);
    SentOnly(w, step);
    RunnerKeepsHelloOnce(w, Next(w, step), Sent(w, step));
  }

  lemma StepKeepsHelloOnce(w: World, step: Step)
    requires Delivers(w) && Opening(w) && HelloOnce(w) && Enabled(w, step)
    ensures HelloOnce(Next(w, step))
  {
    if IsRunnerStep(step) {
      RunnerStepKeepsHelloOnce(w, step);
    } else {
      match step
      case Connect => ConnectKeepsHelloOnce(w);
      case ServerReceive(_) => ServerReceiveKeepsHelloOnce(w, step);
      case HandlerFails(_, _) => HandlerFailsKeepsHelloOnce(w, step);
      case HelloFails(_, _) => HelloFailsKeepsHelloOnce(w, step);
      case ServerDispatch(_) => DispatchKeepsHelloOnce(w, step);
      case DecisionFails => DecisionFailsKeepsHelloOnce(w);
      case Decide(_, _) =>
      case Elsewhere(_, _) =>
    }
  }

  lemma {:induction false} RunKeepsOpening(w: World, steps: seq<Step>)
    requires Delivers(w) && Opening(w) && HelloOnce(w) && Runs(w, steps)
    ensures Delivers(After(w, steps)) && Opening(After(w, steps)) && HelloOnce(After(w, steps))
    decreases |steps|
  {
    if steps != [] {
      StepKeepsDelivery(w, steps[0]);
      StepKeepsOpening(w, steps[0]);
      StepKeepsHelloOnce(w, steps[0]);
      RunKeepsOpening(Next(w, steps[0]), steps[1..]);
    }
  }

  lemma ReachableOpens(w: World)
    requires Reachable(w)
    ensures Delivers(w) && Opening(w) && HelloOnce(w)
  {
    var w0, steps :| Initial(w0) && Runs(w0, steps) && After(w0, steps) == w;
    InitialDelivers(w0);
    RunKeepsOpening(w0, steps);
  }

  /**
   * In every reachable state, an acknowledgement the server has logged names a recorded message if and only if it is
   * not the refusal of a Reconnect; and what is in flight to the runner is logged.
   */
  lemma AcknowledgementsAreEarned(w: World, e: Envelope, k: nat)
    requires Reachable(w) && (e in w.s.serverLog || e in w.toRunner) && e.payload.ackSeq == Some(k)
    ensures Recorded(w.s.runnerLog, k) <==> !Refuses(w, e, k)
  {
    ReachableOpens(w);
    assert e in w.s.serverLog && IsAckFor(e, k);
    var i :| 0 <= i < |w.s.serverLog| && w.s.serverLog[i] == e;
    assert IsAckFor(w.s.serverLog[i], k);
  }
}
