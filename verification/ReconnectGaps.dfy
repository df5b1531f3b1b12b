/** Exactly when the messages a runner has handled stop being one contiguous block of the server's log. */
module ReconnectGaps {
  import opened Common
  import opened Envelopes
  import opened RunnerState
  import opened RunnerTransport
  import opened TaskQueue
  import opened Tables
  import opened MessageLog
  import opened Gateway
  import opened Reconnect
  import opened ReconnectDelivery
  import opened ReconnectOrder
  import opened ReconnectOpening

  ghost predicate Handles(step: Step) {
    step.RunnerReceive? || step.Crash?
  }

  /** A registered runner takes a message whose number does not follow the last one it handled. */
  ghost predicate Missteps(w: World, step: Step)
    requires Enabled(w, step)
  {
    && Handles(step) && w.r.handled != []
    && Noted(w.r, w.toRunner[0]).handled != w.r.handled
    && w.toRunner[0].num != Last(w.r.handled).num + 1
  }

  /** What was handled is logged, and a registered runner has handled its acceptance. */
  ghost predicate FromLog(w: World) {
    (forall e | e in w.r.handled :: e in w.s.serverLog) && (w.r.p.registered ==> w.r.handled != [])
  }

  ghost predicate InOneBlock(w: World) {
    Block(w.s.serverLog, w.r.handled)
  }

  lemma BlockFront(rows: seq<Envelope>, xs: seq<Envelope>, e: Envelope)
    requires Dense(rows) && Block(rows, xs + [e])
    ensures Block(rows, xs)
    ensures xs != [] ==> e.num == Last(xs).num + 1
  {
    var all := xs + [e];
    BlockPrefix(rows, all, |xs|);
    assert all[..|xs|] == xs;
    BlockSpan(rows, all);
    if xs != [] {
      BlockSpan(rows, xs);
    }
  }

  /** Handling one logged message keeps a block if and only if it follows. */
  lemma HandlingKeepsBlockIff(rows: seq<Envelope>, xs: seq<Envelope>, e: Envelope)
    requires Dense(rows) && e in rows
    ensures Block(rows, xs + [e]) <==> Block(rows, xs) && (xs != [] ==> e.num == Last(xs).num + 1)
  {
    LoggedNumber(rows, e);
    if Block(rows, xs) && (xs != [] ==> e.num == Last(xs).num + 1) {
      BlockSnoc(rows, xs, e);
    }
    if Block(rows, xs + [e]) {
      BlockFront(rows, xs, e);
    }
  }

  /** Whether logged messages are a block does not depend on what is logged after them. */
  lemma LongerLogSameBlock(rows: seq<Envelope>, more: seq<Envelope>, xs: seq<Envelope>)
    requires Dense(more) && rows <= more && forall e | e in xs :: e in rows
    ensures Block(rows, xs) <==> Block(more, xs)
  {
    if Block(rows, xs) {
      BlockGrows(rows, more, xs);
    }
    if Block(more, xs) && xs != [] {
      BlockSpan(more, xs);
      var at := xs[0].num - 1;
      LoggedNumber(rows, xs[|xs| - 1]);
      assert xs == more[at..at + |xs|] == rows[at..at + |xs|];
    }
  }

  lemma HandledFrame(w: World, step: Step)
    requires Delivers(w) && Enabled(w, step)
    ensures w.s.serverLog <= Next(w, step).s.serverLog
    ensures Next(w, step).r.handled ==
            if Handles(step) then Noted(w.r, w.toRunner[0]).handled else w.r.handled
  {
    match step
    case AppSend(t, task, payload) => SendFrame(w.r, t, task, payload);
    case ServerReceive(active) => ServerLogGrows(w, step);
    case ServerDispatch(c) => DispatchServes(w.s, w.id, w.cfg, c);
    case DecisionFails => DecisionFailsKeeps(w);
    case RunnerReceive => BeginFrame(w.r, w.toRunner[0]);
    case RunnerMark => FinishedFrame(w.r, w.handling.value);
    case Crash(_, _, _) => CrashFrame(w, step);
    case _ =>
  }

  lemma RegisteredFrame(w: World, step: Step)
    requires Delivers(w) && Enabled(w, step)
    ensures Next(w, step).r.p.registered ==>
              w.r.p.registered || (Handles(step) && Noted(w.r, w.toRunner[0]).handled != [])
  {
    match step
    case AppSend(t, task, payload) => SendFrame(w.r, t, task, payload);
    case RunnerReceive => BeginFrame(w.r, w.toRunner[0]);
    case RunnerMark => FinishedFrame(w.r, w.handling.value);
    case Restart(version) => RestartKeeps(w, version);
    case Crash(_, cut, _) =>
      CrashFrame(w, step);
      CutFrame(w.r, w.toRunner[0], cut);
    case _ =>
  }

  lemma ServerLogGrows(w: World, step: Step)
    requires Delivers(w) && step.ServerReceive? && Enabled(w, step)
    ensures w.s.serverLog <= Next(w, step).s.serverLog
  {
    if w.s.session == Waiting {
      HelloServes(w.s, w.toServer[0]);
    } else {
      HandleServes(w.s, w.toServer[0], w.id, w.cfg, step.active);
    }
  }

  /** One step: the handled messages are one block afterwards if and only if they were before and it is no misstep. */
  lemma StepKeepsBlockIff(w: World, step: Step)
    requires Delivers(w) && FromLog(w) && Enabled(w, step)
    ensures FromLog(Next(w, step))
    ensures InOneBlock(Next(w, step)) <==> InOneBlock(w) && !Missteps(w, step)
  {
    var w' := Next(w, step);
    StepKeepsDelivery(w, step);
    HandledFrame(w, step);
    RegisteredFrame(w, step);
    LongerLogSameBlock(w.s.serverLog, w'.s.serverLog, w.r.handled);
    if w'.r.handled != w.r.handled {
      TakenKeeps(w);
      HandlingKeepsBlockIff(w'.s.serverLog, w.r.handled, w.toRunner[0]);
    }
  }

  ghost predicate NeverMissteps(w: World, steps: seq<Step>)
    requires Runs(w, steps)
    decreases |steps|
  {
    steps == [] || (!Missteps(w, steps[0]) && NeverMissteps(Next(w, steps[0]), steps[1..]))
  }

  lemma {:induction false} RunKeepsBlockIff(w: World, steps: seq<Step>)
    requires Delivers(w) && FromLog(w) && Runs(w, steps)
    ensures InOneBlock(After(w, steps)) <==> InOneBlock(w) && NeverMissteps(w, steps)
    ensures FromLog(After(w, steps))
    decreases |steps|
  {
    if steps != [] {
      StepKeepsBlockIff(w, steps[0]);
      StepKeepsDelivery(w, steps[0]);
      RunKeepsBlockIff(Next(w, steps[0]), steps[1..]);
    }
  }

  /** Over every run, crashes and refusals included: one block at the end if and only if no step was a misstep. */
  lemma OneBlockIffNoMisstep(w0: World, steps: seq<Step>)
    requires Initial(w0) && Runs(w0, steps)
    ensures InOneBlock(After(w0, steps)) <==> NeverMissteps(w0, steps)
  {
    InitialDelivers(w0);
    RunKeepsBlockIff(w0, steps);
  }

  // ---------------------------------------------------------------- what makes a misstep

  /** The number of the first message of the answer to a Reconnect. */
  function FirstAnswer(s: ServerSide, e: Envelope): nat {
    if e.payload.version < s.minVersion then |s.serverLog| + 1 else e.payload.lastSeq + 1
  }

  lemma AnswerStartsAt(s: ServerSide, e: Envelope)
    requires ServerOk(s) && e.mtype == Reconnect && e.payload.lastSeq <= |s.serverLog|
    requires e.payload.version < s.minVersion || s.known
    ensures OnReconnect(s, e).out != [] && OnReconnect(s, e).out[0].num == FirstAnswer(s, e)
    ensures OnReconnect(s, e).out[0] in OnReconnect(s, e).s.serverLog
  {
    if e.payload.version < s.minVersion {
      RefusalServes(s, e);
      DenseMax(s.serverLog);
    } else {
      ResumeIsTail(s, e);
    }
  }

  /** What the answer to a Reconnect of a linked runner leaves for the runner to do. */
  lemma AnswerNext(w: World, active: Option<TaskId>)
    requires Delivers(w) && Opening(w) && Enabled(w, ServerReceive(active))
    requires w.s.session == Waiting && w.r.p.registered && w.r.linked && !w.r.stopped
    requires w.toServer[0].payload.version < w.s.minVersion || w.s.known
    ensures var w1 := Next(w, ServerReceive(active));
            && w1.toRunner == OnReconnect(w.s, w.toServer[0]).out && w1.toRunner != []
            && w1.toRunner[0].num == FirstAnswer(w.s, w.toServer[0])
            && w1.s == OnReconnect(w.s, w.toServer[0]).s
            && w1.r.handled == w.r.handled && w1.r.p == w.r.p && Enabled(w1, RunnerReceive)
  {
    AnswerStartsAt(w.s, w.toServer[0]);
  }

  /** A registered runner takes the first incoming message. */
  lemma TakeStep(w: World)
    requires Delivers(w) && FromLog(w) && InOneBlock(w) && w.r.p.registered && Enabled(w, RunnerReceive)
    ensures Next(w, RunnerReceive).r.handled == w.r.handled + [w.toRunner[0]]
    ensures InOneBlock(Next(w, RunnerReceive)) <==> w.toRunner[0].num == Last(w.r.handled).num + 1
  {
    HandledFrame(w, RunnerReceive);
    StepKeepsBlockIff(w, RunnerReceive);
  }

  lemma AnswerStep(w: World, active: Option<TaskId>)
    requires Delivers(w) && Opening(w) && InOneBlock(w) && FromLog(w) && Enabled(w, ServerReceive(active))
    requires w.s.session == Waiting && w.r.p.registered && w.r.linked && !w.r.stopped
    requires w.toServer[0].payload.version < w.s.minVersion || w.s.known
    ensures var w1 := Next(w, ServerReceive(active));
            && Enabled(w1, RunnerReceive)
            && Next(w1, RunnerReceive).r.handled == w.r.handled + [w1.toRunner[0]]
            && (InOneBlock(Next(w1, RunnerReceive))
                <==> FirstAnswer(w.s, w.toServer[0]) == Last(w.r.handled).num + 1)
  {
    AnswerNext(w, active);
    StepKeepsBlockIff(w, ServerReceive(active));
    StepKeepsDelivery(w, ServerReceive(active));
    TakeStep(Next(w, ServerReceive(active)));
  }

  lemma ReachableFacts(w: World)
    requires Reachable(w)
    ensures Delivers(w) && Opening(w) && FromLog(w)
  {
    ReachableOpens(w);
    var w0, steps :| Initial(w0) && Runs(w0, steps) && After(w0, steps) == w;
    InitialDelivers(w0);
    RunKeepsBlockIff(w0, steps);
  }

  /**
   * In every reachable state: after the first message of the answer to a Reconnect has been handled, the handled
   * messages are still one block if and only if that answer starts right after the last one handled. An accepted
   * Reconnect starts after the watermark, a refused one after the end of the log.
   */
  lemma FirstAnswerFollowsIff(w: World, active: Option<TaskId>)
    requires Reachable(w) && InOneBlock(w) && Enabled(w, ServerReceive(active))
    requires w.s.session == Waiting && w.r.p.registered && w.r.linked && !w.r.stopped
    requires w.toServer[0].payload.version < w.s.minVersion || w.s.known
    ensures w.r.handled != []
    ensures var w1 := Next(w, ServerReceive(active));
            Enabled(w1, RunnerReceive)
            && (InOneBlock(Next(w1, RunnerReceive))
                <==> FirstAnswer(w.s, w.toServer[0]) == Last(w.r.handled).num + 1)
  {
    ReachableFacts(w);
    AnswerStep(w, active);
  }

  lemma OrderIsOneBlock(w: World)
    requires Delivers(w) && Order(w)
    ensures Opening(w) && InOneBlock(w) && FromLog(w)
  {
    if w.r.handled != [] {
      BlockSpan(w.s.serverLog, w.r.handled);
    }
  }

  /**
   * A refused Reconnect: with the runner in order and its first message at the server, the handled messages are still
   * one block after the answer has been handled if and only if the step did not skip.
   */
  lemma RefusalBreaksOrderIffItSkips(w: World, active: Option<TaskId>)
    requires ReachableInOrder(w) && Enabled(w, ServerReceive(active))
    requires w.s.session == Waiting && w.r.p.registered && w.r.linked && !w.r.stopped
    requires w.toServer[0].payload.version < w.s.minVersion || w.s.known
    ensures var w1 := Next(w, ServerReceive(active));
            Enabled(w1, RunnerReceive)
            && (InOneBlock(Next(w1, RunnerReceive)) <==> !Skips(w, ServerReceive(active)))
  {
    InOrderFacts(w);
    OrderIsOneBlock(w);
    AnswerStep(w, active);
  }

  /** The world after a restart and a new connection. */
  ghost function Reopened(w: World, version: nat): World {
    Next(Next(w, Restart(version)), Connect)
  }

  lemma ConnectedFacts(w1: World, w2: World)
    requires Delivers(w1) && Opening(w1) && InOneBlock(w1) && FromLog(w1) && w1.r.p.registered
    requires Enabled(w1, Connect) && w2 == Next(w1, Connect)
    ensures Delivers(w2) && Opening(w2) && InOneBlock(w2) && FromLog(w2)
    ensures w2.r.p.registered && w2.r.handled == w1.r.handled && w2.r.linked && !w2.r.stopped
    ensures w2.s.session == Waiting && w2.s.known == w1.s.known && w2.s.minVersion == w1.s.minVersion
    ensures w2.s.serverLog == w1.s.serverLog && w2.toServer != []
    ensures w2.toServer[0].payload.version == w1.r.version
    ensures w2.toServer[0].payload.lastSeq == w1.r.p.lastServerSeq
  {
    StepKeepsDelivery(w1, Connect);
    StepKeepsOpening(w1, Connect);
    StepKeepsBlockIff(w1, Connect);
  }

  lemma ReopenedFacts(w: World, version: nat)
    requires Delivers(w) && Opening(w) && InOneBlock(w) && FromLog(w) && w.r.p.registered
    ensures var w2 := Reopened(w, version);
            && Delivers(w2) && Opening(w2) && InOneBlock(w2) && FromLog(w2)
            && w2.r.p.registered && w2.r.handled == w.r.handled && w2.r.linked && !w2.r.stopped
            && w2.s.session == Waiting
            && w2.toServer != [] && w2.toServer[0].payload.version == version
            && w2.toServer[0].payload.lastSeq == w.r.p.lastServerSeq
            && w2.s.known == w.s.known && w2.s.minVersion == w.s.minVersion && w2.s.serverLog == w.s.serverLog
  {
    RestartKeeps(w, version);
    StepKeepsOpening(w, Restart(version));
    StepKeepsBlockIff(w, Restart(version));
    ConnectedFacts(Next(w, Restart(version)), Reopened(w, version));
  }

  /** A runner in order whose watermark is behind is handling a message, and the other way round. */
  lemma BehindIffHandling(w: World)
    requires Delivers(w) && Order(w) && w.r.p.registered
    ensures w.r.p.lastServerSeq == Last(w.r.handled).num <==> w.handling.None?
  {
  }

  /**
   * A restart: with a registered runner in order, once its new session is accepted and the first message of the answer
   * handled, the handled messages are still one block if and only if the process did not die while handling a message.
   */
  lemma RestartBreaksOrderIffHandling(w: World, version: nat, w2: World, active: Option<TaskId>)
    requires ReachableInOrder(w) && w.r.p.registered && w.s.known && version >= w.s.minVersion
    requires w2 == Reopened(w, version)
    ensures Enabled(w2, ServerReceive(active))
    ensures var w3 := Next(w2, ServerReceive(active));
            Enabled(w3, RunnerReceive) && (InOneBlock(Next(w3, RunnerReceive)) <==> w.handling.None?)
  {
    InOrderFacts(w);
    OrderIsOneBlock(w);
    BehindIffHandling(w);
    ReopenedFacts(w, version);
    AnswerStep(w2, active);
  }

  /** The world after a death inside the handler and a new connection. */
  ghost function CrashedAndReopened(w: World, step: Step): World
    requires Enabled(w, step) && step.Crash?
  {
    Next(Next(w, step), Connect)
  }

  /** A registered runner has handled the message, and the watermark does not say so. */
  lemma CrashLeaves(w: World, step: Step)
    requires Delivers(w) && Order(w) && step.Crash? && Enabled(w, step) && Next(w, step).r.p.registered
    ensures var w1 := Next(w, step);
            && Delivers(w1) && Opening(w1) && FromLog(w1) && InOneBlock(w1)
            && w1.r.handled == Noted(w.r, w.toRunner[0]).handled && w1.r.handled != []
            && Last(w1.r.handled) == w.toRunner[0] && w1.r.p.lastServerSeq < w.toRunner[0].num
            && w1.s == w.s && w1.r.version == step.upgrade
  {
    OrderIsOneBlock(w);
    TakenKeeps(w);
    CrashKeeps(w, step);
    CrashFrame(w, step);
    CutFrame(w.r, w.toRunner[0], step.cut);
    StepKeepsOpening(w, step);
    StepKeepsBlockIff(w, step);
  }

  lemma CrashReopens(w: World, step: Step, w2: World)
    requires ReachableInOrder(w) && step.Crash? && Enabled(w, step) && Next(w, step).r.p.registered
    requires w2 == CrashedAndReopened(w, step)
    ensures Delivers(w2) && Opening(w2) && InOneBlock(w2) && FromLog(w2)
    ensures w2.r.p.registered && w2.r.linked && !w2.r.stopped && w2.r.handled != []
    ensures w2.s.session == Waiting && w2.s.known == w.s.known && w2.s.minVersion == w.s.minVersion
    ensures w2.toServer != [] && w2.toServer[0].payload.version == step.upgrade
    ensures w2.toServer[0].payload.lastSeq < Last(w2.r.handled).num
  {
    InOrderFacts(w);
    CrashLeaves(w, step);
    ConnectedFacts(Next(w, step), w2);
  }

  /**
   * A death inside the handler always breaks the order: once the new session of a registered runner is accepted and the
   * first message of the answer handled, that message does not follow the one the process died in.
   */
  lemma CrashBreaksOrder(w: World, step: Step, w2: World, active: Option<TaskId>)
    requires ReachableInOrder(w) && step.Crash? && Enabled(w, step) && Next(w, step).r.p.registered
    requires w.s.known && step.upgrade >= w.s.minVersion && w2 == CrashedAndReopened(w, step)
    ensures Enabled(w2, ServerReceive(active))
    ensures var w3 := Next(w2, ServerReceive(active));
            Enabled(w3, RunnerReceive) && !InOneBlock(Next(w3, RunnerReceive))
  {
    CrashReopens(w, step, w2);
    AnswerStep(w2, active);
  }

  /** A logged message is known by its number. */
  lemma SameNumberSameRow(rows: seq<Envelope>, a: Envelope, b: Envelope)
    requires Dense(rows) && a in rows && b in rows && a.num == b.num
    ensures a == b
  {
    LoggedNumber(rows, a);
    LoggedNumber(rows, b);
  }

  /** If it did, and the message before was marked, that first message is the one it had been handling, once more. */
  lemma RestartRepeatsTheMessage(w: World, version: nat, w2: World, active: Option<TaskId>)
    requires ReachableInOrder(w) && w.r.p.registered && w.s.known && version >= w.s.minVersion
    requires w2 == Reopened(w, version) && Enabled(w2, ServerReceive(active))
    requires w.handling.Some? && w.r.p.lastServerSeq + 1 == w.handling.value.num
    ensures var w3 := Next(w2, ServerReceive(active));
            Enabled(w3, RunnerReceive) && Next(w3, RunnerReceive).r.handled == w.r.handled + [w.handling.value]
  {
    InOrderFacts(w);
    OrderIsOneBlock(w);
    ReopenedFacts(w, version);
    AnswerStep(w2, active);
    AnswerNext(w2, active);
    AnswerIsLogged(w2, active);
    SameNumberSameRow(Next(w2, ServerReceive(active)).s.serverLog,
                      Next(w2, ServerReceive(active)).toRunner[0], w.handling.value);
  }

  lemma AnswerIsLogged(w: World, active: Option<TaskId>)
    requires Delivers(w) && Enabled(w, ServerReceive(active))
    ensures var w1 := Next(w, ServerReceive(active));
            && Dense(w1.s.serverLog) && w.s.serverLog <= w1.s.serverLog
            && (w1.toRunner != [] ==> w1.toRunner[0] in w1.s.serverLog)
  {
    StepKeepsDelivery(w, ServerReceive(active));
    ServerLogGrows(w, ServerReceive(active));
    var w1 := Next(w, ServerReceive(active));
    if w1.toRunner != [] { assert w1.toRunner[0] in w1.toRunner; }
  }
}
