/**
 * Runs that really happen: a message handled twice after a restart, a gap left by a refusal, and a refusal that is
 * still in the log when the runner could be accepted again.
 */
module ReconnectRuns {
  import opened Common
  import opened Envelopes
  import opened RunnerState
  import opened RunnerTransport
  import opened TaskQueue
  import opened Tables
  import opened MessageLog
  import opened Gateway
  import opened Reconnect
  import opened ReconnectDelivery
  import opened ReconnectOrder
  import opened ReconnectOpening
  import opened ReconnectGaps
  import opened ReconnectConverge
  import opened ReconnectBooks

  // ---------------------------------------------------------------- one more step of a run

  lemma {:induction false} OrderlyCompose(w: World, a: seq<Step>, b: seq<Step>)
    requires Runs(w, a) && Orderly(w, a) && Runs(After(w, a), b) && Orderly(After(w, a), b)
    ensures Runs(w, a + b) && Orderly(w, a + b)
    decreases |a|
  {
    RunsCompose(w, a, After(w, a), b, After(After(w, a), b));
    if a == [] {
      assert a + b == b;
    } else {
      OrderlyCompose(Next(w, a[0]), a[1..], b);
      OrderlyLonger(w, a, b);
    }
  }

  lemma OrderlyLonger(w: World, a: seq<Step>, b: seq<Step>)
    requires a != [] && Enabled(w, a[0]) && !Skips(w, a[0]) && !Forgets(w, a[0])
    requires Runs(Next(w, a[0]), a[1..] + b) && Orderly(Next(w, a[0]), a[1..] + b)
    ensures Runs(w, a + b) && Orderly(w, a + b)
  {
    assert (a + b)[1..] == a[1..] + b;
  }

  lemma InitialInOrder(w: World)
    requires Initial(w)
    ensures ReachableInOrder(w)
  {
    assert Runs(w, []) && Orderly(w, []) && After(w, []) == w;
  }

  lemma SingleStep(w: World, step: Step)
    requires Enabled(w, step) && !Skips(w, step) && !Forgets(w, step)
    ensures Runs(w, [step]) && Orderly(w, [step]) && After(w, [step]) == Next(w, step)
  {
    var none: seq<Step> := [];
    assert [step][1..] == none;
    assert Runs(Next(w, step), none) && Orderly(Next(w, step), none) && After(Next(w, step), none) == Next(w, step);
  }

  lemma ExtendedRun(w0: World, steps: seq<Step>, step: Step)
    requires Initial(w0) && Runs(w0, steps) && Orderly(w0, steps)
    requires Runs(After(w0, steps), [step]) && Orderly(After(w0, steps), [step])
    ensures ReachableInOrder(After(After(w0, steps), [step]))
  {
    RunsCompose(w0, steps, After(w0, steps), [step], After(After(w0, steps), [step]));
    OrderlyCompose(w0, steps, [step]);
    assert Initial(w0) && Runs(w0, steps + [step]) && Orderly(w0, steps + [step]);
  }

  lemma NextInOrder(w: World, step: Step)
    requires ReachableInOrder(w) && Enabled(w, step) && !Skips(w, step) && !Forgets(w, step)
    ensures ReachableInOrder(Next(w, step))
  {
    var w0, steps :| Initial(w0) && Runs(w0, steps) && Orderly(w0, steps) && After(w0, steps) == w;
    SingleStep(w, step);
    ExtendedRun(w0, steps, step);
  }

  lemma InOrderIsReachable(w: World)
    requires ReachableInOrder(w)
    ensures Reachable(w)
  {
    var w0, steps :| Initial(w0) && Runs(w0, steps) && Orderly(w0, steps) && After(w0, steps) == w;
    assert Initial(w0) && Runs(w0, steps) && After(w0, steps) == w;
  }

  // ---------------------------------------------------------------- registration

  ghost predicate Connecting(w: World) {
    && w.r.books == NO_TASKS && w.s.unsent == []
    && w.s.session == Waiting && w.s.serverLog == [] && w.s.runnerLog == [] && w.s.minVersion <= w.r.version
    && w.toRunner == [] && w.handling.None? && w.r.linked && !w.r.stopped
    && |w.toServer| == 1 && w.r.p == ProtoState(2, 0, None, false, map[1 := w.toServer[0]]) && w.r.handled == []
    && w.toServer[0] == Envelope(1, Register, None, EMPTY.(version := w.r.version))
  }

  lemma ConnectRun(w: World) returns (w': World)
    requires Initial(w) && w.s.minVersion <= w.r.version
    ensures ReachableInOrder(w') && Connecting(w') && w'.r.version == w.r.version
  {
    InitialInOrder(w);
    NextInOrder(w, Connect);
    w' := Next(w, Connect);
    assert FRESH.pending[1 := w'.toServer[0]] == map[1 := w'.toServer[0]];
  }

  const ACCEPTED: Envelope := Envelope(1, RegisterAck, None, EMPTY.(ackSeq := Some(1), accepted := true))

  ghost predicate Answered1(w: World) {
    && w.r.books == NO_TASKS && w.s.unsent == []
    && w.s.session == Live && w.s.known && w.s.serverLog == [ACCEPTED] && w.s.minVersion <= w.r.version
    && |w.s.runnerLog| == 1 && w.s.runnerLog[0].num == 1
    && w.toServer == [] && w.toRunner == [ACCEPTED] && w.handling.None? && w.r.linked && !w.r.stopped
    && w.r.p.nextSeq == 2 && w.r.p.lastServerSeq == 0 && w.r.p.pending.Keys == {1} && !w.r.p.registered
    && w.r.handled == []
  }

  lemma AcceptRun(w: World) returns (w': World)
    requires ReachableInOrder(w) && Connecting(w)
    ensures ReachableInOrder(w') && Answered1(w') && w'.r.version == w.r.version
  {
    NextInOrder(w, ServerReceive(None));
    w' := Next(w, ServerReceive(None));
    Accepted(w.s, w.toServer[0]);
    Greeted(w);
  }

  lemma Greeted(w: World)
    requires Enabled(w, ServerReceive(None)) && w.s.session == Waiting && w.r.linked
    ensures var w', m := Next(w, ServerReceive(None)), OnHello(w.s, w.toServer[0]);
            && w'.s == m.s && w'.toServer == w.toServer[1..] && w'.toRunner == w.toRunner + m.out
            && w'.handling == w.handling && (m.s.session == Live ==> w'.r == w.r)
  {
  }

  lemma Accepted(s: ServerSide, e: Envelope)
    requires s.serverLog == [] && s.runnerLog == [] && e.mtype == Register && e.num == 1
    requires s.minVersion <= e.payload.version
    ensures var m := OnHello(s, e);
            && m.out == [ACCEPTED] && m.s.serverLog == [ACCEPTED] && m.s.runnerLog == [e]
            && m.s.session == Live && m.s.known && m.s.minVersion == s.minVersion && m.s.unsent == s.unsent
  {
    assert Note(s, e).runnerLog == [e];
    NextSeqIsFresh([]);
    assert OnHello(s, e).s.serverLog == [] + [ACCEPTED];
  }

  ghost predicate Registered1(w: World) {
    && w.r.books == NO_TASKS && w.s.unsent == []
    && w.s.session == Live && w.s.known && w.s.serverLog == [ACCEPTED] && w.s.minVersion <= w.r.version
    && |w.s.runnerLog| == 1 && w.s.runnerLog[0].num == 1
    && w.toServer == [] && w.toRunner == [] && w.handling == Some(ACCEPTED) && w.r.linked && !w.r.stopped && w.r.ready
    && w.r.p.nextSeq == 2 && w.r.p.lastServerSeq == 0 && w.r.p.pending == map[] && w.r.p.registered
    && w.r.handled == [ACCEPTED]
  }

  lemma RegisterRun(w: World) returns (w': World)
    requires ReachableInOrder(w) && Answered1(w)
    ensures ReachableInOrder(w') && Registered1(w') && w'.r.version == w.r.version
  {
    NextInOrder(w, RunnerReceive);
    w' := Next(w, RunnerReceive);
    AcceptedRunner(w.r);
    Took(w);
  }

  lemma Took(w: World)
    requires Enabled(w, RunnerReceive)
    ensures var w', m := Next(w, RunnerReceive), Begin(w.r, w.toRunner[0]);
            && w'.r == m.r && w'.s == w.s && w'.toServer == w.toServer + m.out && w'.toRunner == w.toRunner[1..]
            && w'.handling == Some(w.toRunner[0])
  {
  }

  lemma AcceptedRunner(r: RunnerSide)
    requires !r.p.registered && r.p.pending.Keys == {1} && r.handled == []
    ensures var m := Begin(r, ACCEPTED);
            && m.out == [] && m.r.ready && m.r.handled == [ACCEPTED]
            && m.r.p == r.p.(registered := true, pending := map[]) && m.r.books == r.books
            && m.r == r.(p := m.r.p, ready := true, handled := m.r.handled)
  {
    assert Acknowledge(r.p, 1).pending.Keys == {};
    assert Begin(r, ACCEPTED).r.p.pending.Keys == {};
  }

  const CAPABILITIES: Envelope := Envelope(2, Capability, None, EMPTY)

  ghost predicate Announced(w: World) {
    && w.r.books == NO_TASKS && w.s.unsent == []
    && w.s.session == Live && w.s.known && w.s.serverLog == [ACCEPTED] && w.s.minVersion <= w.r.version
    && |w.s.runnerLog| == 1 && w.s.runnerLog[0].num == 1
    && w.toServer == [CAPABILITIES] && w.toRunner == [] && w.handling == None && w.r.linked && !w.r.stopped && w.r.ready
    && w.r.p.lastServerSeq == 1 && w.r.p.registered && w.r.handled == [ACCEPTED]
  }

  lemma AnnounceRun(w: World) returns (w': World)
    requires ReachableInOrder(w) && Registered1(w)
    ensures ReachableInOrder(w') && Announced(w') && w'.r.version == w.r.version
  {
    NextInOrder(w, RunnerMark);
    w' := Next(w, RunnerMark);
    assert InOrder(w.r.p.pending) == [] && Flushed(w.r) == [];
    assert w'.toServer == [] + ([] + [CAPABILITIES]);
  }

  const RECEIPT: Envelope := Envelope(2, Ack, None, EMPTY.(ackSeq := Some(2)))

  /** A registered runner with the server's second message on its way to it. */
  ghost predicate Awaiting(w: World) {
    && w.r.books == NO_TASKS && w.s.unsent == []
    && w.s.session == Live && w.s.known && w.s.serverLog == [ACCEPTED, RECEIPT] && w.s.minVersion <= w.r.version
    && w.toServer == [] && w.toRunner == [RECEIPT] && w.handling == None && w.r.linked && !w.r.stopped && w.r.ready
    && w.r.p.lastServerSeq == 1 && w.r.p.registered && w.r.handled == [ACCEPTED]
  }

  lemma ReceiptRun(w: World) returns (w': World)
    requires ReachableInOrder(w) && Announced(w)
    ensures ReachableInOrder(w') && Awaiting(w') && w'.r.version == w.r.version
  {
    NextInOrder(w, ServerReceive(None));
    w' := Next(w, ServerReceive(None));
    Acknowledged(w.s, w.id, w.cfg);
    Served(w);
  }

  lemma Served(w: World)
    requires Enabled(w, ServerReceive(None)) && w.s.session == Live && w.r.linked
    ensures var w', m := Next(w, ServerReceive(None)), Handle(w.s, w.toServer[0], w.id, w.cfg, None);
            && w'.s == m.s && w'.toServer == w.toServer[1..] && w'.toRunner == w.toRunner + m.out
            && w'.handling == w.handling && (m.s.session == Live ==> w'.r == w.r)
  {
  }

  lemma Acknowledged(s: ServerSide, id: RunnerId, cfg: Settings)
    requires s.serverLog == [ACCEPTED] && |s.runnerLog| == 1 && s.runnerLog[0].num == 1
    ensures var m := Handle(s, CAPABILITIES, id, cfg, None);
            && m.out == [RECEIPT] && m.s.serverLog == [ACCEPTED, RECEIPT]
            && m.s.session == s.session && m.s.known == s.known && m.s.minVersion == s.minVersion
            && m.s.unsent == s.unsent
  {
    assert !Recorded(s.runnerLog, 2);
    DenseAppend([ACCEPTED], RECEIPT) by { assert MaxSeq([]) == 0; }
    assert [ACCEPTED] + [RECEIPT] == [ACCEPTED, RECEIPT];
  }

  lemma AnnouncedRun(w: World) returns (w': World)
    requires Initial(w) && w.s.minVersion <= w.r.version
    ensures ReachableInOrder(w') && Announced(w') && w'.r.version == w.r.version
  {
    w' := ConnectRun(w);
    w' := AcceptRun(w');
    w' := RegisterRun(w');
    w' := AnnounceRun(w');
  }

  lemma AwaitingRun(w: World) returns (w': World)
    requires Initial(w) && w.s.minVersion <= w.r.version
    ensures ReachableInOrder(w') && Awaiting(w') && w'.r.version == w.r.version
  {
    w' := AnnouncedRun(w);
    w' := ReceiptRun(w');
  }

  // ---------------------------------------------------------------- the process dies while handling

  /** From every start: a runner in order that is handling a message its watermark does not cover. */
  lemma HandlingRun(w: World) returns (w': World)
    requires Initial(w) && w.s.minVersion <= w.r.version
    ensures ReachableInOrder(w') && w'.r.p.registered && w'.s.known && w'.s.minVersion <= w'.r.version
    ensures w'.handling.Some? && w'.r.p.lastServerSeq + 1 == w'.handling.value.num
  {
    var a := AwaitingRun(w);
    NextInOrder(a, RunnerReceive);
    w' := Next(a, RunnerReceive);
    BeginFrame(a.r, RECEIPT);
  }

  /** From every start a run leads to a runner that has handled one message twice in a row. */
  lemma MessageHandledTwice(w: World) returns (w': World)
    requires Initial(w) && w.s.minVersion <= w.r.version
    ensures Reachable(w') && !InOneBlock(w')
    ensures |w'.r.handled| >= 2 && w'.r.handled[|w'.r.handled| - 1] == w'.r.handled[|w'.r.handled| - 2]
  {
    var a := HandlingRun(w);
    var version := a.r.version;
    var b := Reopened(a, version);
    RestartBreaksOrderIffHandling(a, version, b, None);
    RestartRepeatsTheMessage(a, version, b, None);
    InOrderFacts(a);
    var c := Next(b, ServerReceive(None));
    w' := Next(c, RunnerReceive);
    InOrderIsReachable(a);
    NextIsReachable(a, Restart(version));
    NextIsReachable(Next(a, Restart(version)), Connect);
    NextIsReachable(b, ServerReceive(None));
    NextIsReachable(c, RunnerReceive);
  }

  // ---------------------------------------------------------------- the gateway's handler fails

  /** The runner's first message of its own is dropped by the gateway, and still pending at the runner. */
  ghost predicate Failed(w: World) {
    && CanReconnect(w) && NoUnhandledRefusal(w) && 2 in w.r.p.pending
    && AppNumber(w.r.issued, 2) && w.r.issued[1] in w.s.dropped
  }

  lemma AnnouncementIsPending(w: World)
    requires Delivers(w) && Announced(w)
    ensures AppNumber(w.r.issued, 2) && w.r.issued[1] == CAPABILITIES && 2 in w.r.p.pending
  {
    assert CAPABILITIES in w.toServer && Issued(w.r.issued, CAPABILITIES);
    assert !Recorded(w.s.runnerLog, 2);
  }

  lemma FailedRun(w: World) returns (w': World)
    requires Initial(w) && w.s.minVersion <= w.r.version
    ensures Failed(w')
  {
    var a := AnnouncedRun(w);
    InOrderFacts(a);
    InOrderIsReachable(a);
    AnnouncementIsPending(a);
    NextIsReachable(a, HandlerFails(false, None));
    w' := Next(a, HandlerFails(false, None));
    FailedNext(a, w');
    FailedServer(a.s, a.id, a.cfg);
    FailedFacts(a, w');
  }

  lemma FailedNext(w: World, w': World)
    requires Enabled(w, HandlerFails(false, None)) && w' == Next(w, HandlerFails(false, None))
    ensures w'.r == w.r.(linked := false) && w'.handling == w.handling
    ensures w'.s == FailToHandle(w.s, w.toServer[0], w.id, w.cfg, None, false)
  {
  }

  lemma FailedServer(s: ServerSide, id: RunnerId, cfg: Settings)
    requires |s.runnerLog| == 1 && s.runnerLog[0].num == 1
    ensures var s' := FailToHandle(s, CAPABILITIES, id, cfg, None, false);
            CAPABILITIES in s'.dropped && s'.serverLog == s.serverLog && s'.minVersion == s.minVersion
  {
    assert !Recorded(s.runnerLog, 2);
  }

  lemma FailedFacts(w: World, w': World)
    requires Announced(w) && Reachable(w') && w'.r == w.r.(linked := false) && w'.handling == w.handling
    requires AppNumber(w.r.issued, 2) && w.r.issued[1] == CAPABILITIES && 2 in w.r.p.pending
    requires CAPABILITIES in w'.s.dropped && w'.s.serverLog == w.s.serverLog && w'.s.minVersion == w.s.minVersion
    ensures Failed(w')
  {
  }

  lemma {:induction false} CalmEndIsReachable(w: World, steps: seq<Step>)
    requires Reachable(w) && CalmRun(w, steps)
    ensures Reachable(CalmEnd(w, steps))
    decreases |steps|
  {
    if steps != [] {
      NextIsReachable(w, steps[0]);
      CalmEndIsReachable(Next(w, steps[0]), steps[1..]);
    }
  }

  /**
   * From every start a run leads to an application message that the runner has had acknowledged and forgotten although
   * its effect never ran to its end: recorded before the failure, it is only acknowledged when it is sent again.
   */
  lemma MessageIsLost(w: World) returns (w': World, k: nat)
    requires Initial(w) && w.s.minVersion <= w.r.version
    ensures Reachable(w') && AppNumber(w'.r.issued, k) && k !in w'.r.p.pending
    ensures !HadEffect(w'.s, w'.r.issued[k - 1])
  {
    var a := FailedRun(w);
    SessionDrainsIffNoRefusalIsReplayed(a);
    var b := Next(a, Connect);
    var steps :| CalmRun(b, steps) && Quiescent(CalmEnd(b, steps));
    w', k := CalmEnd(b, steps), 2;
    LostAtTheEnd(a, b, steps, w');
  }

  lemma LostAtTheEnd(a: World, b: World, steps: seq<Step>, end: World)
    requires Failed(a) && b == Next(a, Connect)
    requires CalmRun(b, steps) && end == CalmEnd(b, steps) && Quiescent(end)
    ensures Reachable(end) && AppNumber(end.r.issued, 2) && 2 !in end.r.p.pending
    ensures !HadEffect(end.s, end.r.issued[1])
  {
    SessionDeliversPending(a, steps, 2);
    NextIsReachable(a, Connect);
    CalmEndIsReachable(b, steps);
  }

  // ---------------------------------------------------------------- a send fails

  lemma OneMore(w0: World, steps: seq<Step>, w: World, step: Step) returns (w': World)
    requires Runs(w0, steps) && After(w0, steps) == w && Enabled(w, step)
    ensures w' == Next(w, step) && Runs(w0, steps + [step]) && After(w0, steps + [step]) == w'
    ensures FailedSends(steps + [step]) == FailedSends(steps) + Repeats(step)
  {
    w' := Next(w, step);
    OneStep(w, step);
    RunsCompose(w0, steps, w, [step], w');
    FailedSendsAppend(steps, [step]);
  }

  lemma {:induction false} NewRequest(known: set<nat>) returns (request: nat)
    ensures forall k | k in known :: k < request
  {
    request := 0;
    if known != {} {
      var x :| x in known;
      request := NewRequest(known - {x});
      request := if request <= x then x + 1 else request;
      forall k | k in known ensures k < request {
        if k != x { assert k in known - {x}; }
      }
    }
  }

  ghost predicate CanAsk(w: World) {
    Reachable(w) && w.s.session == Live && w.r.linked && w.r.ready && w.toServer == []
  }

  function Asking(request: nat): Step {
    AppSend(PermissionRequest, Some(0), EMPTY.(request := request))
  }

  /** A request that is new to the server is open once its message has been handled. */
  lemma RequestArrives(w: World, request: nat, w1: World)
    requires CanAsk(w) && request !in w.s.store.requests && w1 == Next(w, Asking(request))
    ensures Enabled(w1, ServerReceive(None))
    ensures var w2 := Next(w1, ServerReceive(None));
            IsOpen(w2.s.store, request) && w2.s.session == Live && w2.r.linked
  {
    ReachableDelivers(w);
    var x := w1.toServer[0];
    assert x.num == |w.r.issued| + 1;
    if Recorded(w.s.runnerLog, x.num) { RecordedWasIssued(w, x.num); }
    NewRequestOpens(w1.s, x, w1.id, w1.cfg);
  }

  lemma NewRequestOpens(s: ServerSide, e: Envelope, r: RunnerId, cfg: Settings)
    requires e.mtype == PermissionRequest && e.taskId.Some? && !Recorded(s.runnerLog, e.num)
    requires e.payload.request !in s.store.requests
    ensures var s' := Handle(s, e, r, cfg, None).s; IsOpen(s'.store, e.payload.request) && s'.session == s.session
  {
  }

  /** A run that logs a decision and leaves it to be sent again: the connection is lost before the decision is sent. */
  lemma DecisionIsRepeated(start: World, content: nat) returns (w0: World, steps: seq<Step>)
    requires Initial(start) && start.s.minVersion <= start.r.version
    ensures Initial(w0) && Runs(w0, steps) && FailedSends(steps) > 0
    ensures var w := After(w0, steps); DecisionsIn(w.s.serverLog) + w.s.unsent != w.s.decided
  {
    var a := AwaitingRun(start);
    InOrderIsReachable(a);
    w0, steps :| Initial(w0) && Runs(w0, steps) && After(w0, steps) == a;
    var request := NewRequest(a.s.store.requests.Keys);
    var b := OneMore(w0, steps, a, Asking(request));
    RequestArrives(a, request, b);
    steps := steps + [Asking(request)];
    var c := OneMore(w0, steps, b, ServerReceive(None));
    steps := steps + [ServerReceive(None)];
    var d := OneMore(w0, steps, c, Decide(request, content));
    steps := steps + [Decide(request, content)];
    var e := OneMore(w0, steps, d, Disconnect(0, 0));
    steps := steps + [Disconnect(0, 0)];
    var f := OneMore(w0, steps, e, DecisionFails);
    steps := steps + [DecisionFails];
    DecisionsAreSentOnceIff(w0, steps, f);
  }

  // ---------------------------------------------------------------- a task is queued while it is worked on

  /** A live session in which nothing waits to be sent, with these books. */
  ghost predicate Steady(w: World, b: Books) {
    Reachable(w) && w.s.session == Live && w.r.linked && !w.r.stopped && w.s.unsent == [] && w.r.books == b
  }

  lemma KeepRun(w: World, b: Books, move: BookMove) returns (w': World)
    requires Steady(w, b) && (move.CheckTask? ==> !b.check.Idle?)
    ensures Steady(w', Move(b, move)) && w'.handling == w.handling && w'.toRunner == w.toRunner
  {
    NextIsReachable(w, Keep(move));
    w' := Next(w, Keep(move));
  }

  /** Tables with one job for the runner. */
  function OneJob(id: RunnerId, requests: map<nat, RequestRow>): Store {
    Store(0, map[5 := TaskRow(Queued, Some(id), None, 0, false, 0)],
          map[5 := Job(RunnerTarget(id), Pending, 0, 3, 0, None, None, 0, 0)], map[5 := NEW_LEDGER], requests)
  }

  lemma OneJobIsClaimed(id: RunnerId, requests: map<nat, RequestRow>)
    ensures RecoverExpired(OneJob(id, requests), Some(RunnerTarget(id))) == OneJob(id, requests)
    ensures Possible(OneJob(id, requests), id, Choice(None, Some(5)))
  {
    var s := OneJob(id, requests);
    var r := RecoverExpired(s, Some(RunnerTarget(id)));
    assert r.jobs == s.jobs && r.tasks == s.tasks && r.ledger == s.ledger;
  }

  ghost predicate AssignsFive(e: Envelope) {
    e.mtype == TaskAssign && e.payload.task == 5
  }

  lemma OneJobIsSent(s: ServerSide, id: RunnerId, cfg: Settings)
    requires s.store == OneJob(id, s.store.requests) && s.unsent == []
    ensures Possible(Sweep(s, id).store, id, Choice(None, Some(5)))
    ensures var m := Dispatch(s, id, cfg, Choice(None, Some(5)));
            |m.out| == 1 && AssignsFive(m.out[0]) && m.s.session == s.session && m.s.unsent == []
  {
    OneJobIsClaimed(id, s.store.requests);
    assert Sweep(s, id) == s;
    assert SendDecisions(s) == Reply(s, []);
  }

  lemma OneJobRun(w: World, b: Books) returns (w': World)
    requires Steady(w, b) && w.toRunner == []
    ensures Steady(w', b) && w'.handling == w.handling && w'.toRunner == []
    ensures w'.s.store == OneJob(w'.id, w'.s.store.requests)
  {
    var tables := Elsewhere(OneJob(w.id, map[]), w.s.minVersion);
    NextIsReachable(w, tables);
    w' := Next(w, tables);
  }

  lemma DispatchRun(w: World, b: Books) returns (w': World)
    requires Steady(w, b) && w.toRunner == []
    ensures Steady(w', b) && w'.handling == w.handling && |w'.toRunner| == 1 && AssignsFive(w'.toRunner[0])
  {
    var w1 := OneJobRun(w, b);
    var choice := Choice(None, Some(5));
    OneJobIsSent(w1.s, w1.id, w1.cfg);
    NextIsReachable(w1, ServerDispatch(choice));
    w' := Next(w1, ServerDispatch(choice));
  }

  /** A job is assigned, and the handler of the assignment comes to its check. */
  lemma AssignRun(w: World, b: Books) returns (w': World)
    requires Steady(w, b) && w.toRunner == [] && w.handling.None?
    ensures Steady(w', CheckBegun(b, 5)) && w'.toRunner == []
    ensures w'.handling.Some? && AssignsFive(w'.handling.value)
  {
    var a := DispatchRun(w, b);
    NextIsReachable(a, RunnerReceive);
    w' := Next(a, RunnerReceive);
    BeginBooks(a.r, a.toRunner[0]);
    BeginFrame(a.r, a.toRunner[0]);
    Took(a);
  }

  lemma MarkRun(w: World, b: Books) returns (w': World)
    requires Steady(w, b) && b.check.Idle? && w.handling.Some? && AssignsFive(w.handling.value)
    ensures Steady(w', b) && w'.handling.None? && w'.toRunner == w.toRunner
  {
    NextIsReachable(w, RunnerMark);
    w' := Next(w, RunnerMark);
  }

  /** The first assignment puts the task on the queue. */
  lemma QueuedRun(w: World) returns (w': World)
    requires Steady(w, NO_TASKS) && w.toRunner == [] && w.handling.None?
    ensures Steady(w', Books(None, {5}, [5], NotTaken, Idle)) && w'.toRunner == [] && w'.handling.None?
  {
    w' := AssignRun(w, NO_TASKS);
    w' := KeepRun(w', Books(None, {}, [], NotTaken, Comparing(5)), CheckTask);
    w' := KeepRun(w', Books(None, {}, [], NotTaken, Searching(5, false)), CheckTask);
    assert {} + {5} == {5};
    w' := KeepRun(w', Books(None, {5}, [], NotTaken, Putting(5)), CheckTask);
    assert [] + [5] == [5];
    w' := MarkRun(w', Books(None, {5}, [5], NotTaken, Idle));
  }

  /** While the handler of the second one is between its two reads, the main thread takes the task. */
  lemma TakenBetweenReads(w: World) returns (w': World)
    requires Steady(w, Books(None, {5}, [5], NotTaken, Idle)) && w.toRunner == [] && w.handling.None?
    ensures Steady(w', Books(Some(5), {}, [], NotTaken, Searching(5, true)))
  {
    w' := AssignRun(w, Books(None, {5}, [5], NotTaken, Idle));
    w' := KeepRun(w', Books(None, {5}, [5], NotTaken, Comparing(5)), CheckTask);
    w' := KeepRun(w', Books(None, {5}, [5], NotTaken, Searching(5, false)), TakeTask);
    w' := KeepRun(w', Books(None, {5}, [], Got(5), Searching(5, false)), DiscardTask);
    assert {5} - {5} == {};
    w' := KeepRun(w', Books(None, {}, [], Dropped(5), Searching(5, true)), ActivateTask);
  }

  /** From every start a run leads to a task that waits in the queue while it is the active one. */
  lemma TaskIsDoubled(start: World) returns (w: World)
    requires Initial(start) && start.s.minVersion <= start.r.version
    ensures Reachable(w) && w.r.books.active == Some(5) && w.r.books.tasks == [5]
  {
    var a := AnnouncedRun(start);
    InOrderIsReachable(a);
    w := QueuedRun(a);
    w := TakenBetweenReads(w);
    w := KeepRun(w, Books(Some(5), {}, [], NotTaken, Searching(5, true)), CheckTask);
    assert {} + {5} == {5};
    w := KeepRun(w, Books(Some(5), {5}, [], NotTaken, Putting(5)), CheckTask);
  }

  // ---------------------------------------------------------------- a refusal skips

  ghost predicate Cut(w: World) {
    && w.s.session == Live && w.s.known && w.s.serverLog == [ACCEPTED, RECEIPT]
    && w.toServer == [] && w.toRunner == [] && w.handling == None && !w.r.linked && !w.r.stopped
    && w.r.p.lastServerSeq == 1 && w.r.p.registered && w.r.handled == [ACCEPTED]
  }

  /** The connection is lost with the message, and the minimum version is raised. */
  lemma LossRun(w: World) returns (w': World)
    requires ReachableInOrder(w) && Awaiting(w)
    ensures ReachableInOrder(w') && Cut(w') && w'.r.version == w.r.version && w'.s.minVersion == w.r.version + 1
  {
    var gone, raised := Disconnect(0, 0), Elsewhere(w.s.store, w.r.version + 1);
    NextInOrder(w, gone);
    NextInOrder(Next(w, gone), raised);
    w' := Next(Next(w, gone), raised);
  }

  /** From every start: the first message of a session, about to be refused although the log holds more. */
  lemma SkippingRun(w: World) returns (w': World)
    requires Initial(w) && w.s.minVersion <= w.r.version
    ensures ReachableInOrder(w') && Enabled(w', ServerReceive(None)) && Skips(w', ServerReceive(None))
    ensures w'.s.session == Waiting && w'.r.p.registered && w'.r.linked && !w'.r.stopped
    ensures w'.s.known && w'.handling == None && w'.r.p.lastServerSeq == 1 && |w'.s.serverLog| == 2
    ensures w'.toServer[0].payload.version == w'.r.version < w'.s.minVersion
  {
    var a := AwaitingRun(w);
    a := LossRun(a);
    NextInOrder(a, Connect);
    w' := Next(a, Connect);
  }

  /** From every start a run leads to a gap in what the runner has handled. */
  lemma RefusalLeavesGap(w: World) returns (w': World)
    requires Initial(w) && w.s.minVersion <= w.r.version
    ensures Reachable(w') && !InOneBlock(w')
  {
    var a := SkippingRun(w);
    RefusalBreaksOrderIffItSkips(a, None);
    var b := Next(a, ServerReceive(None));
    w' := Next(b, RunnerReceive);
    InOrderIsReachable(a);
    NextIsReachable(a, ServerReceive(None));
    NextIsReachable(b, RunnerReceive);
  }

  ghost predicate Refused(w: World) {
    && w.r.p.registered && !w.r.linked && !w.r.stopped && w.handling.None? && w.r.p.lastServerSeq == 1
    && |w.s.serverLog| == 3 && IsRejection(w.s.serverLog[2])
  }

  lemma RefusalNext(a: World)
    requires Enabled(a, ServerReceive(None)) && a.s.session == Waiting && a.toServer[0].mtype == Reconnect
    requires a.toServer[0].payload.version < a.s.minVersion
    ensures var w := Next(a, ServerReceive(None));
            w.s == OnReconnect(a.s, a.toServer[0]).s && w.r == a.r.(linked := false) && w.handling == a.handling
  {
  }

  lemma RefusalLogged(s: ServerSide, e: Envelope)
    requires ServerOk(s) && e.mtype == Reconnect && e.payload.version < s.minVersion && |s.serverLog| == 2
    ensures |OnReconnect(s, e).s.serverLog| == 3 && IsRejection(OnReconnect(s, e).s.serverLog[2])
  {
    RefusalServes(s, e);
  }

  lemma RefusedRun(w: World) returns (w': World)
    requires Initial(w) && w.s.minVersion <= w.r.version
    ensures Reachable(w') && Refused(w')
  {
    var a := SkippingRun(w);
    InOrderFacts(a);
    InOrderIsReachable(a);
    NextIsReachable(a, ServerReceive(None));
    RefusalNext(a);
    RefusalLogged(a.s, a.toServer[0]);
    w' := Next(a, ServerReceive(None));
  }

  /**
   * From every start a run leads to a runner that the server would accept and that nevertheless cannot finish its next
   * session, because a refusal it has never seen is replayed to it.
   */
  lemma RefusalIsReplayed(w: World) returns (w': World)
    requires Initial(w) && w.s.minVersion <= w.r.version
    ensures CanReconnect(w') && !NoUnhandledRefusal(w') && !CanDrain(Next(w', Connect))
  {
    var a := RefusedRun(w);
    var lowered := Elsewhere(a.s.store, a.r.version);
    NextIsReachable(a, lowered);
    w' := Next(a, lowered);
    assert IsRejection(w'.s.serverLog[2]);
    SessionDrainsIffNoRefusalIsReplayed(w');
  }
}
