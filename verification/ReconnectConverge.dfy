/** One uninterrupted session delivers everything that was pending when it began. */
module ReconnectConverge {
  import opened Common
  import opened Envelopes
  import opened RunnerState
  import opened RunnerTransport
  import opened TaskQueue
  import opened Tables
  import opened MessageLog
  import opened Gateway
  import opened Reconnect
  import opened ReconnectDelivery
  import opened ReconnectOrder
  import opened ReconnectOpening

  /** Steps of a session that is not cut: anything but a new connection, a loss or a restart. */
  predicate Uninterrupted(w: World, step: Step) {
    match step
    case Connect => false
    case HandlerFails(_, _) => false
    case HelloFails(_, _) => false
    case DecisionFails => false
    case Disconnect(_, _) => false
    case Restart(_) => false
    case Crash(_, _, _) => false
    case Elsewhere(_, minVersion) => minVersion <= w.r.version
    case _ => true
  }

  ghost predicate CalmRun(w: World, steps: seq<Step>)
    decreases |steps|
  {
    steps == [] ||
    (Enabled(w, steps[0]) && Uninterrupted(w, steps[0]) && CalmRun(Next(w, steps[0]), steps[1..]))
  }

  ghost function CalmEnd(w: World, steps: seq<Step>): World
    requires CalmRun(w, steps)
    decreases |steps|
  {
    if steps == [] then w else CalmEnd(Next(w, steps[0]), steps[1..])
  }

  /** Nothing is under way at either end or between them. */
  predicate Quiescent(w: World) {
    w.toServer == [] && w.toRunner == [] && w.handling.None?
  }

  // ---------------------------------------------------------------- the server knows a registered runner

  ghost predicate Welcomes(e: Envelope) {
    e.mtype == RegisterAck && e.payload.accepted
  }

  ghost predicate KnownOk(w: World) {
    (w.r.p.registered ==> w.s.known) && (forall e | e in w.s.serverLog :: Welcomes(e) ==> w.s.known)
  }

  lemma HandleOut(s: ServerSide, e: Envelope, r: RunnerId, cfg: Settings, active: Option<TaskId>)
    ensures var m := Handle(s, e, r, cfg, active);
            && m.s.known == s.known && m.s.minVersion == s.minVersion
            && |m.out| <= 1
            && (e.mtype != Ack ==> |m.out| == 1)
            && forall x | x in m.out :: (x.mtype == Ack || x.mtype == HeartbeatAck) && !Readies(x)
                                         && x.payload.ackSeq == Some(e.num)
  {
  }

  lemma DispatchKnown(s: ServerSide, r: RunnerId, cfg: Settings, c: Choice)
    requires Possible(Sweep(s, r).store, r, c)
    ensures Dispatch(s, r, cfg, c).s.known == s.known && Dispatch(s, r, cfg, c).s.minVersion == s.minVersion
  {
    DecisionsFrame(Sweep(s, r));
  }

  /** Whether the server knows the runner changes only when it accepts it, and no other answer welcomes anybody. */
  lemma HelloKnown(s: ServerSide, e: Envelope)
    requires ServerOk(s)
    ensures s.known ==> OnHello(s, e).s.known
    ensures OnHello(s, e).s.serverLog == s.serverLog
            || (exists x :: OnHello(s, e).s.serverLog == s.serverLog + [x] && (Welcomes(x) ==> OnHello(s, e).s.known))
  {
    var m := OnHello(s, e);
    if e.mtype == Register {
      RegisterServes(s, e);
      assert m.s.serverLog == s.serverLog + [m.out[0]];
    } else if e.mtype == Reconnect {
      if e.payload.version < s.minVersion {
        RefusalServes(s, e);
        assert m.s.serverLog == s.serverLog + [m.out[0]];
      } else if s.known {
        ResumeServes(s, e);
        assert m.s.serverLog == s.serverLog + [Welcome(s, e)];
      }
    }
  }

  /** KnownOk looks at the registration, the server's knowledge and its log. */
  lemma KnownGrows(w: World, w': World, out: seq<Envelope>)
    requires KnownOk(w) && w'.r.p.registered == w.r.p.registered && (w.s.known ==> w'.s.known)
    requires w'.s.serverLog == w.s.serverLog + out
    requires forall x | x in out :: Welcomes(x) ==> w'.s.known
    ensures KnownOk(w')
  {
  }

  lemma ServerReceiveKeepsKnown(w: World, step: Step)
    requires Delivers(w) && KnownOk(w) && step.ServerReceive? && Enabled(w, step)
    ensures KnownOk(Next(w, step))
  {
    var e := w.toServer[0];
    var w' := Next(w, step);
    if w.s.session == Waiting {
      HelloKnown(w.s, e);
      if w'.s.serverLog == w.s.serverLog {
        KnownGrows(w, w', []);
      } else {
        var x :| w'.s.serverLog == w.s.serverLog + [x] && (Welcomes(x) ==> w'.s.known);
        KnownGrows(w, w', [x]);
      }
    } else {
      HandleServes(w.s, e, w.id, w.cfg, step.active);
      HandleOut(w.s, e, w.id, w.cfg, step.active);
      KnownGrows(w, w', Handle(w.s, e, w.id, w.cfg, step.active).out);
    }
  }

  lemma ServerStepKeepsKnown(w: World, step: Step)
    requires Delivers(w) && KnownOk(w) && Enabled(w, step)
    requires step.ServerDispatch? || step.HandlerFails? || step.HelloFails? || step.DecisionFails?
    ensures KnownOk(Next(w, step))
  {
    match step
    case ServerDispatch(c) =>
      DispatchServes(w.s, w.id, w.cfg, c);
      DispatchKnown(w.s, w.id, w.cfg, c);
      KnownGrows(w, Next(w, step), Dispatch(w.s, w.id, w.cfg, c).out);
    case HandlerFails(done, active) =>
      FailureServes(w.s, w.toServer[0], w.id, w.cfg, active, done);
      KnownGrows(w, Next(w, step), []);
    case HelloFails(upserted, replayed) =>
      HelloFailureServes(w.s, w.toServer[0], upserted, replayed);
      KnownGrows(w, Next(w, step), []);
    case DecisionFails =>
      DecisionServes(w.s);
      DecisionFailsKeeps(w);
      KnownGrows(w, Next(w, step), SendDecision(w.s).out);
  }

  lemma StepKeepsKnown(w: World, step: Step)
    requires Delivers(w) && KnownOk(w) && Enabled(w, step)
    ensures KnownOk(Next(w, step))
  {
    match step
    case AppSend(t, task, payload) => SendFrame(w.r, t, task, payload);
    case Connect =>
    case ServerReceive(_) => ServerReceiveKeepsKnown(w, step);
    case ServerDispatch(_) => ServerStepKeepsKnown(w, step);
    case HandlerFails(_, _) => ServerStepKeepsKnown(w, step);
    case HelloFails(_, _) => ServerStepKeepsKnown(w, step);
    case DecisionFails => ServerStepKeepsKnown(w, step);
    case RunnerReceive =>
      BeginFrame(w.r, w.toRunner[0]);
      assert w.toRunner[0] in w.s.serverLog;
    case RunnerMark => FinishedFrame(w.r, w.handling.value);
    case Restart(version) => RestartKeeps(w, version);
    case Crash(_, cut, _) =>
      TakenKeeps(w);
      CrashFrame(w, step);
      CutFrame(w.r, w.toRunner[0], cut);
    case _ =>
  }

  // ---------------------------------------------------------------- the session invariant

  /** No refusal waits to be handled: neither on its way nor, before the server's answer, in the log to be replayed. */
  ghost predicate NoRefusalAhead(w: World) {
    && (forall e | e in w.toRunner :: !IsRejection(e))
    && (w.s.session == Waiting ==>
          forall i | w.r.p.lastServerSeq <= i < |w.s.serverLog| :: !IsRejection(w.s.serverLog[i]))
  }

  ghost predicate Calm(w: World) {
    && Delivers(w) && Opening(w) && KnownOk(w)
    && w.r.p.registered && w.r.linked && !w.r.stopped
    && w.s.session != Closed
    && w.s.minVersion <= w.r.version
    && (w.handling.Some? && Readies(w.handling.value) ==> w.r.ready)
    && NoRefusalAhead(w)
  }

  /** The server's answer to an accepted Reconnect: the unhandled rows and then the answer itself. */
  lemma ResumeNext(w: World, step: Step)
    requires Delivers(w) && Opening(w) && KnownOk(w) && step.ServerReceive? && Enabled(w, step)
    requires w.s.session == Waiting && w.r.p.registered && w.r.linked && w.s.minVersion <= w.r.version
    ensures var w' := Next(w, step);
            && w'.s.session == Live && w'.s.minVersion == w.s.minVersion && w'.r == w.r && w'.handling.None?
            && w'.toServer == []
            && w'.toRunner == w.s.serverLog[w.r.p.lastServerSeq..] + [Welcome(w.s, w.toServer[0])]
  {
    ResumeAnswer(w.s, w.toServer[0]);
    assert w.toRunner == [] && w.toServer[1..] == [];
  }

  lemma ResumeAnswer(s: ServerSide, e: Envelope)
    requires ServerOk(s) && e.mtype == Reconnect && e.payload.version >= s.minVersion && s.known
    requires 0 <= e.payload.lastSeq <= |s.serverLog|
    ensures var m := OnHello(s, e);
            && m.s.session == Live && m.s.minVersion == s.minVersion
            && m.out == s.serverLog[e.payload.lastSeq..] + [Welcome(s, e)]
  {
    ResumeServes(s, e);
    DenseReplay(s.serverLog, 0, e.payload.lastSeq);
  }

  lemma HelloStaysCalm(w: World, step: Step)
    requires Calm(w) && step.ServerReceive? && Enabled(w, step) && w.s.session == Waiting
    ensures Calm(Next(w, step))
    ensures var w' := Next(w, step);
            w'.s.session == Live && w'.r == w.r && w'.handling.None? && w'.toServer == []
            && w'.toRunner != [] && Readies(Last(w'.toRunner))
  {
    BasicsKept(w, step);
    ResumeNext(w, step);
    RefusalFree(w, Next(w, step));
  }

  lemma RefusalFree(w: World, w': World)
    requires NoRefusalAhead(w) && w.s.session == Waiting && w'.s.session == Live
    requires w.r.p.lastServerSeq <= |w.s.serverLog| && w.toServer != []
    requires w'.toRunner == w.s.serverLog[w.r.p.lastServerSeq..] + [Welcome(w.s, w.toServer[0])]
    ensures NoRefusalAhead(w')
  {
    forall e | e in w'.toRunner ensures !IsRejection(e) {
      if e in w.s.serverLog[w.r.p.lastServerSeq..] {
        var i :| 0 <= i < |w.s.serverLog[w.r.p.lastServerSeq..]| && w.s.serverLog[w.r.p.lastServerSeq..][i] == e;
        assert w.s.serverLog[w.r.p.lastServerSeq + i] == e;
      }
    }
  }

  lemma BasicsKept(w: World, step: Step)
    requires Delivers(w) && Opening(w) && KnownOk(w) && Enabled(w, step)
    ensures Delivers(Next(w, step)) && Opening(Next(w, step)) && KnownOk(Next(w, step))
  {
    StepKeepsDelivery(w, step);
    StepKeepsOpening(w, step);
    StepKeepsKnown(w, step);
  }

  /** A live session that sends more messages, no refusal among them. */
  lemma LiveStaysCalm(w: World, w': World, out: seq<Envelope>)
    requires Calm(w) && w.s.session == Live && Delivers(w') && Opening(w') && KnownOk(w')
    requires w'.r == w.r && w'.handling == w.handling && w'.s.session == Live && w'.s.minVersion == w.s.minVersion
    requires w'.toRunner == w.toRunner + out
    requires forall x | x in out :: !IsRejection(x)
    ensures Calm(w')
  {
  }

  lemma HandleNext(w: World, step: Step)
    requires Delivers(w) && step.ServerReceive? && Enabled(w, step) && w.s.session == Live && w.r.linked
    ensures var m := Handle(w.s, w.toServer[0], w.id, w.cfg, step.active);
            Next(w, step).toRunner == w.toRunner + m.out && Next(w, step).toServer == w.toServer[1..]
            && Next(w, step).r == w.r && Next(w, step).handling == w.handling && Next(w, step).s == m.s
            && m.s.session == Live
  {
    HandleServes(w.s, w.toServer[0], w.id, w.cfg, step.active);
  }

  lemma HandleStaysCalm(w: World, step: Step)
    requires Calm(w) && step.ServerReceive? && Enabled(w, step) && w.s.session == Live
    ensures Calm(Next(w, step))
    ensures var m := Handle(w.s, w.toServer[0], w.id, w.cfg, step.active);
            Next(w, step).toRunner == w.toRunner + m.out && Next(w, step).toServer == w.toServer[1..]
            && Next(w, step).r == w.r && Next(w, step).handling == w.handling && Next(w, step).s.session == Live
  {
    BasicsKept(w, step);
    HandleNext(w, step);
    HandleOut(w.s, w.toServer[0], w.id, w.cfg, step.active);
    LiveStaysCalm(w, Next(w, step), Handle(w.s, w.toServer[0], w.id, w.cfg, step.active).out);
  }

  lemma DispatchStaysCalm(w: World, step: Step)
    requires Calm(w) && step.ServerDispatch? && Enabled(w, step)
    ensures Calm(Next(w, step))
    ensures Next(w, step).toRunner == w.toRunner + Dispatch(w.s, w.id, w.cfg, step.choice).out
    ensures Next(w, step).toServer == w.toServer && Next(w, step).r == w.r && Next(w, step).handling == w.handling
    ensures Next(w, step).s.session == Live
  {
    BasicsKept(w, step);
    DispatchServes(w.s, w.id, w.cfg, step.choice);
    DispatchKnown(w.s, w.id, w.cfg, step.choice);
    LiveStaysCalm(w, Next(w, step), Dispatch(w.s, w.id, w.cfg, step.choice).out);
  }

  lemma ReceiveStaysCalm(w: World)
    requires Calm(w) && Enabled(w, RunnerReceive)
    ensures Calm(Next(w, RunnerReceive))
  {
    BasicsKept(w, RunnerReceive);
    BeginFrame(w.r, w.toRunner[0]);
    assert !IsRejection(w.toRunner[0]);
  }

  lemma MarkStaysCalm(w: World)
    requires Calm(w) && Enabled(w, RunnerMark)
    ensures Calm(Next(w, RunnerMark))
  {
    BasicsKept(w, RunnerMark);
  }

  lemma QuietStaysCalm(w: World, step: Step)
    requires Calm(w) && Enabled(w, step) && Uninterrupted(w, step)
    requires step.AppSend? || step.Resend? || step.Keep? || step.Decide? || step.Elsewhere?
    ensures Calm(Next(w, step))
  {
    BasicsKept(w, step);
    if step.AppSend? {
      SendFrame(w.r, step.t, step.task, step.payload);
    }
  }

  // ---------------------------------------------------------------- where a pending message is

  ghost predicate OnItsWay(xs: seq<Envelope>, k: nat) {
    exists i :: 0 <= i < |xs| && xs[i].num == k
  }

  ghost predicate AckComing(xs: seq<Envelope>, k: nat) {
    exists i :: 0 <= i < |xs| && IsAckFor(xs[i], k)
  }

  ghost predicate FlushComing(w: World) {
    (w.handling.Some? && Readies(w.handling.value)) || exists i :: 0 <= i < |w.toRunner| && Readies(w.toRunner[i])
  }

  /** A message numbered k has been acknowledged, or it or its acknowledgement or the next flush is under way. */
  ghost predicate Progressing(w: World, k: nat) {
    || k !in w.r.p.pending
    || w.s.session == Waiting
    || FlushComing(w)
    || OnItsWay(w.toServer, k)
    || AckComing(w.toRunner, k)
  }

  lemma MoreIncoming(w: World, w': World, out: seq<Envelope>, k: nat)
    requires Progressing(w, k) && w.s.session != Waiting
    requires w'.toRunner == w.toRunner + out && w'.handling == w.handling && w'.toServer == w.toServer && w'.r == w.r
    ensures Progressing(w', k)
  {
    if k in w.r.p.pending {
      if i :| 0 <= i < |w.toRunner| && Readies(w.toRunner[i]) {
        assert w'.toRunner[i] == w.toRunner[i];
      } else if i :| 0 <= i < |w.toRunner| && IsAckFor(w.toRunner[i], k) {
        assert w'.toRunner[i] == w.toRunner[i];
      }
    }
  }

  lemma FirstIsAnswered(
      toServer: seq<Envelope>, toRunner: seq<Envelope>, out: seq<Envelope>, k: nat)
    requires OnItsWay(toServer, k)
    requires toServer[0].num == k ==> |out| == 1 && forall x | x in out :: IsAckFor(x, k)
    ensures OnItsWay(toServer[1..], k) || AckComing(toRunner + out, k)
  {
    var i :| 0 <= i < |toServer| && toServer[i].num == k;
    if i == 0 {
      assert out[0] in out;
      assert IsAckFor((toRunner + out)[|toRunner|], k);
    } else {
      assert toServer[1..][i - 1].num == k;
    }
  }

  /** The message itself reaches the server and is acknowledged, or it is still behind the one that did. */
  lemma ArrivalProgress(w: World, step: Step, k: nat)
    requires Calm(w) && step.ServerReceive? && Enabled(w, step) && w.s.session == Live
    requires AppNumber(w.r.issued, k) && OnItsWay(w.toServer, k)
    ensures OnItsWay(Next(w, step).toServer, k) || AckComing(Next(w, step).toRunner, k)
  {
    var e := w.toServer[0];
    HandleNext(w, step);
    HandleOut(w.s, e, w.id, w.cfg, step.active);
    assert e in w.toServer && Issued(w.r.issued, e);
    FirstIsAnswered(w.toServer, w.toRunner, Handle(w.s, e, w.id, w.cfg, step.active).out, k);
  }

  lemma HandleProgress(w: World, step: Step, k: nat)
    requires Calm(w) && step.ServerReceive? && Enabled(w, step) && w.s.session == Live
    requires AppNumber(w.r.issued, k) && Progressing(w, k)
    ensures Progressing(Next(w, step), k)
  {
    var w' := Next(w, step);
    if OnItsWay(w.toServer, k) {
      ArrivalProgress(w, step, k);
    } else {
      HandleNext(w, step);
      MoreIncoming(w, w'.(toServer := w.toServer, s := w.s),
                   Handle(w.s, w.toServer[0], w.id, w.cfg, step.active).out, k);
    }
  }

  lemma ReceiveProgress(w: World, k: nat)
    requires Calm(w) && Enabled(w, RunnerReceive)
    requires AppNumber(w.r.issued, k) && Progressing(w, k)
    ensures Progressing(Next(w, RunnerReceive), k)
  {
    var e := w.toRunner[0];
    var m := Begin(w.r, e);
    BeginMoves(w.r, e);
    var w' := Next(w, RunnerReceive);
    assert w'.r.p.pending == m.r.p.pending;
    if k in w'.r.p.pending && !Readies(e) {
      assert k in w.r.p.pending && !IsAckFor(e, k);
      if OnItsWay(w.toServer, k) {
        var i :| 0 <= i < |w.toServer| && w.toServer[i].num == k;
        assert w'.toServer[i].num == k;
      } else if AckComing(w.toRunner, k) {
        var i :| 0 <= i < |w.toRunner| && IsAckFor(w.toRunner[i], k);
        assert IsAckFor(w'.toRunner[i - 1], k);
      } else {
        var i :| 0 <= i < |w.toRunner| && Readies(w.toRunner[i]);
        assert Readies(w'.toRunner[i - 1]);
      }
    }
  }

  lemma FlushCarries(r: RunnerSide, k: nat)
    requires RunnerOk(r) && r.ready && r.linked && k in r.p.pending && IsApplication(r.p.pending[k].mtype)
    ensures OnItsWay(Flushed(r), k)
  {
    FlushedMembers(r);
    var i :| 0 <= i < |Flushed(r)| && Flushed(r)[i] == r.p.pending[k];
    assert Flushed(r)[i].num == k;
  }

  lemma OnItsWayAppend(xs: seq<Envelope>, ys: seq<Envelope>, zs: seq<Envelope>, k: nat)
    requires OnItsWay(ys, k)
    ensures OnItsWay(xs + (ys + zs), k)
  {
    var i :| 0 <= i < |ys| && ys[i].num == k;
    assert (xs + (ys + zs))[|xs| + i].num == k;
  }

  /** A readying answer's flush carries every pending application message. */
  lemma FlushOut(r: RunnerSide, e: Envelope, base: seq<Envelope>, k: nat)
    requires RunnerOk(r) && r.ready && r.linked && k in r.p.pending && IsApplication(r.p.pending[k].mtype)
    ensures OnItsWay(base + Flush(r, e).out, k)
  {
    FlushCarries(r, k);
    var extra := if e.mtype == RegisterAck then Send(r, Capability, None, EMPTY).out else [];
    assert Flush(r, e).out == Flushed(r) + extra;
    OnItsWayAppend(base, Flushed(r), extra, k);
  }

  lemma OnItsWayLonger(xs: seq<Envelope>, ys: seq<Envelope>, k: nat)
    requires OnItsWay(xs, k)
    ensures OnItsWay(xs + ys, k)
  {
    var i :| 0 <= i < |xs| && xs[i].num == k;
    assert (xs + ys)[i].num == k;
  }

  lemma MarkNext(w: World)
    requires Delivers(w) && Enabled(w, RunnerMark)
    ensures var w', m := Next(w, RunnerMark), Finished(w.r, w.handling.value);
            && w'.r.p.pending == m.r.p.pending && w'.toServer == w.toServer + m.out && w'.toRunner == w.toRunner
            && w'.s == w.s && w'.handling == None
            && (forall k | k in m.r.p.pending && k <= |w.r.issued| :: k in w.r.p.pending)
  {
    FinishedMoves(w.r, w.handling.value);
  }

  /** What the mark sends carries the message, if a flush was due. */
  lemma MarkSends(w: World, k: nat)
    requires Calm(w) && w.handling.Some? && k in w.r.p.pending && AppNumber(w.r.issued, k)
    requires Readies(w.handling.value) || OnItsWay(w.toServer, k)
    ensures OnItsWay(w.toServer + Finished(w.r, w.handling.value).out, k)
  {
    var e := w.handling.value;
    assert Issued(w.r.issued, w.r.p.pending[k]);
    if Readies(e) {
      FlushOut(w.r, e, w.toServer, k);
    } else {
      OnItsWayLonger(w.toServer, Finished(w.r, e).out, k);
    }
  }

  /** Nothing handled but not marked: one source less of a flush to come. */
  lemma MarkedProgress(w: World, w': World, k: nat)
    requires w.handling.Some? && Progressing(w, k) && w'.toRunner == w.toRunner && w'.s == w.s
    requires k in w.r.p.pending && (Readies(w.handling.value) || OnItsWay(w.toServer, k) ==> OnItsWay(w'.toServer, k))
    ensures Progressing(w', k)
  {
  }

  lemma MarkProgress(w: World, k: nat)
    requires Calm(w) && Enabled(w, RunnerMark)
    requires AppNumber(w.r.issued, k) && Progressing(w, k)
    ensures Progressing(Next(w, RunnerMark), k)
  {
    var w' := Next(w, RunnerMark);
    MarkNext(w);
    if k in w'.r.p.pending {
      if Readies(w.handling.value) || OnItsWay(w.toServer, k) {
        MarkSends(w, k);
      }
      MarkedProgress(w, w', k);
    }
  }

  lemma QuietProgress(w: World, step: Step, k: nat)
    requires Calm(w) && Enabled(w, step) && Uninterrupted(w, step)
    requires step.AppSend? || step.Resend? || step.Keep? || step.Decide? || step.Elsewhere?
    requires AppNumber(w.r.issued, k) && Progressing(w, k)
    ensures Progressing(Next(w, step), k)
  {
    var w' := Next(w, step);
    if step.AppSend? {
      SendMoves(w.r, step.t, step.task, step.payload);
    }
    assert w.toServer <= w'.toServer && w'.toRunner == w.toRunner && w'.handling == w.handling;
    assert w'.s.session == w.s.session;
    if OnItsWay(w.toServer, k) {
      var i :| 0 <= i < |w.toServer| && w.toServer[i].num == k;
      assert w'.toServer[i].num == k;
    }
    assert FlushComing(w) ==> FlushComing(w');
  }

  lemma StaysNumbered(w: World, step: Step, k: nat)
    requires Delivers(w) && Enabled(w, step) && AppNumber(w.r.issued, k)
    ensures AppNumber(Next(w, step).r.issued, k)
  {
    StepExtendsIssued(w, step);
    assert Next(w, step).r.issued[k - 1] == w.r.issued[k - 1];
  }

  lemma AnswerProgress(w: World, step: Step, k: nat)
    requires Calm(w) && Enabled(w, step) && step.ServerReceive?
    requires AppNumber(w.r.issued, k) && Progressing(w, k)
    ensures Calm(Next(w, step)) && Progressing(Next(w, step), k)
  {
    if w.s.session == Waiting {
      HelloStaysCalm(w, step);
      var w' := Next(w, step);
      assert Readies(w'.toRunner[|w'.toRunner| - 1]);
    } else {
      HandleStaysCalm(w, step);
      HandleProgress(w, step, k);
    }
  }

  /** Every uninterrupted step keeps the session calm and each message progressing. */
  lemma StepProgress(w: World, step: Step, k: nat)
    requires Calm(w) && Enabled(w, step) && Uninterrupted(w, step)
    requires AppNumber(w.r.issued, k) && Progressing(w, k)
    ensures Calm(Next(w, step)) && AppNumber(Next(w, step).r.issued, k) && Progressing(Next(w, step), k)
  {
    StaysNumbered(w, step, k);
    match step
    case ServerReceive(_) => AnswerProgress(w, step, k);
    case ServerDispatch(c) =>
      DispatchStaysCalm(w, step);
      MoreIncoming(w, Next(w, step), Dispatch(w.s, w.id, w.cfg, c).out, k);
    case RunnerReceive =>
      ReceiveStaysCalm(w);
      ReceiveProgress(w, k);
    case RunnerMark =>
      MarkStaysCalm(w);
      MarkProgress(w, k);
    case _ =>
      QuietStaysCalm(w, step);
      QuietProgress(w, step, k);
  }

  lemma {:induction false} RunProgress(w: World, steps: seq<Step>, k: nat)
    requires Calm(w) && CalmRun(w, steps)
    requires AppNumber(w.r.issued, k) && Progressing(w, k)
    ensures var w' := CalmEnd(w, steps);
            Calm(w') && AppNumber(w'.r.issued, k) && Progressing(w', k) && w.r.issued <= w'.r.issued
    decreases |steps|
  {
    if steps != [] {
      StepProgress(w, steps[0], k);
      StepExtendsIssued(w, steps[0]);
      RunProgress(Next(w, steps[0]), steps[1..], k);
    }
  }

  // ---------------------------------------------------------------- the session from its first message

  /** A registered runner is about to reconnect to a server that accepts its version. */
  ghost predicate ReadyToReconnect(w: World) {
    && Delivers(w) && Opening(w) && KnownOk(w)
    && w.r.p.registered && Enabled(w, Connect)
    && w.s.minVersion <= w.r.version
  }

  /** A registered runner in any reachable state, without a connection and with a version the server accepts. */
  ghost predicate CanReconnect(w: World) {
    Reachable(w) && w.r.p.registered && Enabled(w, Connect) && w.s.minVersion <= w.r.version
  }

  lemma {:induction false} RunKeepsKnown(w: World, steps: seq<Step>)
    requires Delivers(w) && KnownOk(w) && Runs(w, steps)
    ensures KnownOk(After(w, steps))
    decreases |steps|
  {
    if steps != [] {
      StepKeepsDelivery(w, steps[0]);
      StepKeepsKnown(w, steps[0]);
      RunKeepsKnown(Next(w, steps[0]), steps[1..]);
    }
  }

  lemma ReachableKnown(w: World)
    requires Reachable(w)
    ensures KnownOk(w)
  {
    var w0, steps :| Initial(w0) && Runs(w0, steps) && After(w0, steps) == w;
    InitialDelivers(w0);
    RunKeepsKnown(w0, steps);
  }

  /** Every such state satisfies what the session proofs ask for. */
  lemma ReachableIsReady(w: World)
    requires CanReconnect(w)
    ensures ReadyToReconnect(w)
  {
    ReachableOpens(w);
    ReachableKnown(w);
  }

  /** No refusal is among the rows the runner has not handled yet. */
  ghost predicate NoUnhandledRefusal(w: World) {
    forall i | w.r.p.lastServerSeq <= i < |w.s.serverLog| :: !IsRejection(w.s.serverLog[i])
  }

  lemma ReconnectIsCalm(w: World)
    requires ReadyToReconnect(w) && NoUnhandledRefusal(w)
    ensures Calm(Next(w, Connect))
    ensures Next(w, Connect).s.session == Waiting
    ensures forall k | AppNumber(w.r.issued, k) :: AppNumber(Next(w, Connect).r.issued, k)
  {
    BasicsKept(w, Connect);
    OpenMoves(w.r);
  }

  /**
   * However the session's steps are interleaved with new sends, task assignments and resends: once the connection is
   * quiet, every application message that was pending when the session began is acknowledged and its effect has run,
   * unless an earlier session had dropped it.
   */
  lemma SessionDeliversPending(w: World, steps: seq<Step>, k: nat)
    requires CanReconnect(w) && NoUnhandledRefusal(w)
    requires CalmRun(Next(w, Connect), steps) && Quiescent(CalmEnd(Next(w, Connect), steps))
    requires AppNumber(w.r.issued, k) && k in w.r.p.pending
    ensures var end := CalmEnd(Next(w, Connect), steps);
            k !in end.r.p.pending && w.r.issued <= end.r.issued
            && (HadEffect(end.s, w.r.issued[k - 1]) <==> w.r.issued[k - 1] !in w.s.dropped)
  {
    ReachableIsReady(w);
    ReachableDropped(w);
    ReconnectIsCalm(w);
    OpenMoves(w.r);
    assert Next(w, Connect).r.issued[k - 1] == w.r.issued[k - 1];
    CalmRunDelivers(Next(w, Connect), steps, k);
  }

  lemma {:induction false} CalmRunDropsNothing(w: World, steps: seq<Step>)
    requires Delivers(w) && DroppedOk(w.s) && CalmRun(w, steps)
    ensures CalmEnd(w, steps).s.dropped == w.s.dropped
    decreases |steps|
  {
    if steps != [] {
      StepDrops(w, steps[0]);
      StepKeepsDelivery(w, steps[0]);
      CalmRunDropsNothing(Next(w, steps[0]), steps[1..]);
    }
  }

  lemma CalmRunDelivers(w: World, steps: seq<Step>, k: nat)
    requires Calm(w) && w.s.session == Waiting && CalmRun(w, steps) && Quiescent(CalmEnd(w, steps))
    requires AppNumber(w.r.issued, k) && DroppedOk(w.s)
    ensures var end := CalmEnd(w, steps);
            k !in end.r.p.pending && w.r.issued <= end.r.issued
            && w.r.issued[k - 1] in end.s.begun && end.s.dropped == w.s.dropped
  {
    RunProgress(w, steps, k);
    CalmRunDropsNothing(w, steps);
    var end := CalmEnd(w, steps);
    assert end.r.issued[k - 1] == w.r.issued[k - 1];
    QuietMeansDone(end, k);
    GoneMeansBegun(end, k);
  }

  lemma QuietMeansDone(w: World, k: nat)
    requires Calm(w) && Quiescent(w) && Progressing(w, k)
    ensures k !in w.r.p.pending
  {
  }

  // ---------------------------------------------------------------- deliveries end

  predicate IsDelivery(step: Step) {
    step.ServerReceive? || step.RunnerReceive? || step == Keep(CheckTask) || step.RunnerMark?
  }

  /** An assignment causes two answers and a check, a cancellation or a permission result one answer. */
  function WeightOf(e: Envelope): nat {
    if e.mtype == TaskAssign then 11 else if e.mtype == CancelTask || e.mtype == PermissionResult then 8 else 2
  }

  function Weight(xs: seq<Envelope>): nat {
    if xs == [] then 0 else WeightOf(xs[0]) + Weight(xs[1..])
  }

  function Flushes(xs: seq<Envelope>): nat {
    if xs == [] then 0 else (if Readies(xs[0]) then 1 else 0) + Flushes(xs[1..])
  }

  lemma {:induction false} WeightAppend(xs: seq<Envelope>, ys: seq<Envelope>)
    ensures Weight(xs + ys) == Weight(xs) + Weight(ys) && Flushes(xs + ys) == Flushes(xs) + Flushes(ys)
  {
    if xs == [] {
      assert xs + ys == ys;
    } else {
      assert (xs + ys)[1..] == xs[1..] + ys;
      WeightAppend(xs[1..], ys);
    }
  }

  function OpeningsLeft(w: World): nat {
    if w.s.session == Waiting then 1 else 0
  }

  function FlushesLeft(w: World): nat {
    Flushes(w.toRunner) + if w.handling.Some? && Readies(w.handling.value) then 1 else 0
  }

  function ChecksLeft(c: Check): nat {
    match c
    case Idle => 0
    case Comparing(_) => 3
    case Searching(_, _) => 2
    case Putting(_) => 1
  }

  function TrafficLeft(w: World): nat {
    3 * |w.toServer| + Weight(w.toRunner) + ChecksLeft(w.r.books.check) + if w.handling.Some? then 1 else 0
  }

  predicate Less(w': World, w: World) {
    || OpeningsLeft(w') < OpeningsLeft(w)
    || (OpeningsLeft(w') == OpeningsLeft(w) && FlushesLeft(w') < FlushesLeft(w))
    || (OpeningsLeft(w') == OpeningsLeft(w) && FlushesLeft(w') == FlushesLeft(w) && TrafficLeft(w') < TrafficLeft(w))
  }

  lemma BeginOut(r: RunnerSide, e: Envelope)
    ensures 3 * |Begin(r, e).out| + 1 + ChecksLeft(Begin(r, e).r.books.check)
            < WeightOf(e) + ChecksLeft(r.books.check)
    ensures Readies(e) ==> Begin(r, e).out == []
  {
    if e.mtype == TaskAssign { AssignOut(AckPayload(Noted(r, e), e), e); }
  }

  lemma AssignOut(r: RunnerSide, e: Envelope)
    ensures |OnAssign(r, e).out| <= 2 && OnAssign(r, e).r.books == CheckBegun(r.books, e.payload.task)
  {
  }

  lemma HandleShrinks(w: World, step: Step)
    requires Calm(w) && step.ServerReceive? && Enabled(w, step) && w.s.session == Live
    ensures Less(Next(w, step), w)
  {
    HandleNext(w, step);
    HandleWeighs(w.s, w.toServer[0], w.id, w.cfg, step.active);
    LighterTraffic(w, Next(w, step), Handle(w.s, w.toServer[0], w.id, w.cfg, step.active).out);
  }

  lemma HandleWeighs(s: ServerSide, e: Envelope, r: RunnerId, cfg: Settings, active: Option<TaskId>)
    ensures var out := Handle(s, e, r, cfg, active).out; Weight(out) <= 2 && Flushes(out) == 0
  {
    var out := Handle(s, e, r, cfg, active).out;
    HandleOut(s, e, r, cfg, active);
    if out != [] { assert out[0] in out && out[1..] == []; }
  }

  /** A message from the runner gives way to its lighter answer. */
  lemma LighterTraffic(w: World, w': World, out: seq<Envelope>)
    requires w.s.session == Live && w'.s.session == Live && w.toServer != [] && w'.toServer == w.toServer[1..]
    requires w'.r == w.r && w'.handling == w.handling && w'.toRunner == w.toRunner + out
    requires Weight(out) <= 2 && Flushes(out) == 0
    ensures Less(w', w)
  {
    WeightAppend(w.toRunner, out);
  }

  lemma ReceiveShrinks(w: World)
    requires Calm(w) && Enabled(w, RunnerReceive)
    ensures Less(Next(w, RunnerReceive), w)
  {
    BeginOut(w.r, w.toRunner[0]);
    assert Weight(w.toRunner) == WeightOf(w.toRunner[0]) + Weight(w.toRunner[1..]);
  }

  lemma MarkShrinks(w: World)
    requires Calm(w) && Enabled(w, RunnerMark)
    ensures Less(Next(w, RunnerMark), w)
  {
    MarkNext(w);
  }

  lemma CheckShrinks(w: World)
    requires Calm(w) && Enabled(w, Keep(CheckTask))
    ensures Less(Next(w, Keep(CheckTask)), w)
  {
  }

  /** Every delivery leaves strictly less to deliver, so no run of deliveries alone goes on for ever. */
  lemma DeliveryShrinks(w: World, step: Step)
    requires Calm(w) && IsDelivery(step) && Enabled(w, step)
    ensures Calm(Next(w, step)) && Less(Next(w, step), w)
  {
    match step
    case ServerReceive(_) =>
      if w.s.session == Waiting {
        HelloStaysCalm(w, step);
      } else {
        HandleStaysCalm(w, step);
        HandleShrinks(w, step);
      }
    case RunnerReceive =>
      ReceiveStaysCalm(w);
      ReceiveShrinks(w);
    case Keep(_) =>
      QuietStaysCalm(w, step);
      CheckShrinks(w);
    case RunnerMark =>
      MarkStaysCalm(w);
      MarkShrinks(w);
  }

  /** Until the connection is quiet, some delivery is possible. */
  lemma DeliveryPossible(w: World) returns (step: Step)
    requires Calm(w) && !Quiescent(w)
    ensures IsDelivery(step) && Enabled(w, step) && Uninterrupted(w, step)
  {
    if w.handling.Some? {
      step := if w.r.books.check.Idle? then RunnerMark else Keep(CheckTask);
    } else if w.toRunner != [] {
      step := RunnerReceive;
    } else {
      step := ServerReceive(None);
    }
  }

  lemma {:induction false} Drains(w: World) returns (steps: seq<Step>)
    requires Calm(w)
    ensures CalmRun(w, steps) && Quiescent(CalmEnd(w, steps))
    ensures forall i | 0 <= i < |steps| :: IsDelivery(steps[i])
    decreases OpeningsLeft(w), FlushesLeft(w), TrafficLeft(w)
  {
    if Quiescent(w) {
      steps := [];
    } else {
      var step := DeliveryPossible(w);
      DeliveryShrinks(w, step);
      var rest := Drains(Next(w, step));
      steps := [step] + rest;
      assert steps[1..] == rest;
    }
  }

  // ---------------------------------------------------------------- a refusal left in the log

  /** A refusal is due and something follows it, or the runner has stopped with messages still coming. */
  ghost predicate Stuck(w: World) {
    || (w.s.session == Waiting && w.r.p.registered && w.r.linked && |w.toServer| == 1 && !NoUnhandledRefusal(w))
    || (w.r.linked && w.s.session == Live && exists i :: 0 <= i < |w.toRunner| - 1 && IsRejection(w.toRunner[i]))
    || (w.r.stopped && w.toRunner != [])
  }

  ghost predicate StuckSession(w: World) {
    && Delivers(w) && Opening(w) && KnownOk(w) && Stuck(w)
    && w.r.p.registered && w.s.minVersion <= w.r.version && w.r.linked && w.s.session != Closed
  }

  lemma RefusalReplayed(w: World, w': World, at: nat, more: seq<Envelope>)
    requires at <= |w.s.serverLog| && w'.toRunner == w.s.serverLog[at..] + more && more != []
    requires exists j :: at <= j < |w.s.serverLog| && IsRejection(w.s.serverLog[j])
    ensures exists i :: 0 <= i < |w'.toRunner| - 1 && IsRejection(w'.toRunner[i])
  {
    var j :| at <= j < |w.s.serverLog| && IsRejection(w.s.serverLog[j]);
    assert w'.toRunner[j - at] == w.s.serverLog[j];
  }

  lemma StuckOpening(w: World, step: Step)
    requires StuckSession(w) && step.ServerReceive? && Enabled(w, step) && w.s.session == Waiting
    ensures StuckSession(Next(w, step))
  {
    BasicsKept(w, step);
    ResumeNext(w, step);
    assert !NoUnhandledRefusal(w);
    RefusalReplayed(w, Next(w, step), w.r.p.lastServerSeq, [Welcome(w.s, w.toServer[0])]);
  }

  lemma StuckReceive(w: World)
    requires StuckSession(w) && Enabled(w, RunnerReceive)
    ensures StuckSession(Next(w, RunnerReceive))
  {
    BasicsKept(w, RunnerReceive);
    var e := w.toRunner[0];
    BeginFrame(w.r, e);
    var w' := Next(w, RunnerReceive);
    var i :| 0 <= i < |w.toRunner| - 1 && IsRejection(w.toRunner[i]);
    if i > 0 {
      assert w'.toRunner[i - 1] == w.toRunner[i];
    }
  }

  lemma MoreStuck(w: World, w': World, out: seq<Envelope>)
    requires Stuck(w) && w.s.session == Live && w'.s.session == Live && w'.r == w.r && w'.toRunner == w.toRunner + out
    ensures Stuck(w')
  {
    if i :| 0 <= i < |w.toRunner| - 1 && IsRejection(w.toRunner[i]) {
      assert w'.toRunner[i] == w.toRunner[i];
    }
  }

  lemma StuckHandle(w: World, step: Step)
    requires StuckSession(w) && step.ServerReceive? && Enabled(w, step) && w.s.session == Live
    ensures StuckSession(Next(w, step))
  {
    BasicsKept(w, step);
    HandleNext(w, step);
    HandleOut(w.s, w.toServer[0], w.id, w.cfg, step.active);
    MoreStuck(w, Next(w, step), Handle(w.s, w.toServer[0], w.id, w.cfg, step.active).out);
  }

  lemma StuckDispatch(w: World, step: Step)
    requires StuckSession(w) && step.ServerDispatch? && Enabled(w, step)
    ensures StuckSession(Next(w, step))
  {
    BasicsKept(w, step);
    DispatchServes(w.s, w.id, w.cfg, step.choice);
    DispatchKnown(w.s, w.id, w.cfg, step.choice);
    MoreStuck(w, Next(w, step), Dispatch(w.s, w.id, w.cfg, step.choice).out);
  }

  lemma StuckStays(w: World, step: Step)
    requires StuckSession(w) && Enabled(w, step) && Uninterrupted(w, step)
    ensures StuckSession(Next(w, step))
  {
    match step
    case ServerReceive(_) =>
      if w.s.session == Waiting {
        StuckOpening(w, step);
      } else {
        StuckHandle(w, step);
      }
    case ServerDispatch(_) => StuckDispatch(w, step);
    case RunnerReceive => StuckReceive(w);
    case _ => StuckQuiet(w, step);
  }

  lemma StuckQuiet(w: World, step: Step)
    requires StuckSession(w) && Enabled(w, step) && Uninterrupted(w, step)
    requires !step.ServerReceive? && !step.ServerDispatch? && !step.RunnerReceive?
    ensures StuckSession(Next(w, step))
  {
    BasicsKept(w, step);
    if step.RunnerMark? {
      SendFrame(w.r, Capability, None, EMPTY);
    } else if step.AppSend? {
      SendFrame(w.r, step.t, step.task, step.payload);
    }
  }

  lemma {:induction false} StuckForever(w: World, steps: seq<Step>)
    requires StuckSession(w) && CalmRun(w, steps)
    ensures !Quiescent(CalmEnd(w, steps))
    decreases |steps|
  {
    if steps != [] {
      StuckStays(w, steps[0]);
      StuckForever(Next(w, steps[0]), steps[1..]);
    }
  }

  /** Some uninterrupted run of the session ends with nothing under way. */
  ghost predicate CanDrain(w: World) {
    exists steps :: CalmRun(w, steps) && Quiescent(CalmEnd(w, steps))
  }

  lemma CalmDrains(w: World)
    requires Calm(w)
    ensures CanDrain(w)
  {
    var steps := Drains(w);
    assert CalmRun(w, steps);
  }

  lemma StuckNeverDrains(w: World)
    requires StuckSession(w)
    ensures !CanDrain(w)
  {
    forall steps | CalmRun(w, steps) ensures !Quiescent(CalmEnd(w, steps)) {
      StuckForever(w, steps);
    }
  }

  lemma ReconnectIsStuck(w: World)
    requires ReadyToReconnect(w) && !NoUnhandledRefusal(w)
    ensures StuckSession(Next(w, Connect))
  {
    BasicsKept(w, Connect);
    var w1 := Next(w, Connect);
    assert w1.s.serverLog == w.s.serverLog && w1.r.p.lastServerSeq == w.r.p.lastServerSeq;
  }

  /**
   * A reconnect session can be run to the end exactly when no refusal is among the rows the runner has not handled: a
   * refusal that was logged but lost is replayed, and stops the runner even though its version is accepted by now.
   */
  lemma SessionDrainsIffNoRefusalIsReplayed(w: World)
    requires CanReconnect(w)
    ensures CanDrain(Next(w, Connect)) <==> NoUnhandledRefusal(w)
  {
    ReachableIsReady(w);
    if NoUnhandledRefusal(w) {
      ReconnectIsCalm(w);
      CalmDrains(Next(w, Connect));
    } else {
      ReconnectIsStuck(w);
      StuckNeverDrains(Next(w, Connect));
    }
  }
}
