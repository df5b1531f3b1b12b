/**
 * Permission requests over every run: the table of requests holds exactly what the runner asked for, and every request
 * is decided at most once.
 */
module ReconnectRequests {
  import opened Common
  import opened Envelopes
  import opened Tables
  import opened MessageLog
  import opened Gateway
  import opened Reconnect
  import opened ReconnectDelivery
  import opened ReconnectBooks

  /** How many of the decisions are about this request. */
  function Answers(ds: seq<Decision>, request: nat): nat {
    if ds == [] then 0
    else Answers(ds[..|ds| - 1], request) + (if ds[|ds| - 1].request == request then 1 else 0)
  }

  predicate Resolved(s: Store, request: nat) {
    request in s.requests && !s.requests[request].open
  }

  predicate Asks(e: Envelope, request: nat) {
    e.mtype == PermissionRequest && e.taskId.Some? && e.payload.request == request
  }

  /** The request and its task are those of a message whose effect has taken place. */
  ghost predicate WasAsked(s: ServerSide, request: nat, t: TaskId) {
    exists e :: HadEffect(s, e) && Asks(e, request) && e.taskId == Some(t)
  }

  ghost predicate AskedOk(s: ServerSide) {
    && (forall request | request in s.store.requests :: WasAsked(s, request, s.store.requests[request].task))
    && (forall e | HadEffect(s, e) :: forall request | Asks(e, request) :: request in s.store.requests)
  }

  ghost predicate DecidedOk(s: ServerSide) {
    && (forall request :: Answers(s.decided, request) == if Resolved(s.store, request) then 1 else 0)
    && (forall d | d in s.decided :: d.request in s.store.requests && s.store.requests[d.request].task == d.task)
  }

  // ---------------------------------------------------------------- one step

  lemma EffectAsks(s: Store, e: Envelope, r: RunnerId, cfg: Settings, active: Option<TaskId>)
    ensures Effect(s, e, r, cfg, active).requests ==
            if e.mtype == PermissionRequest && e.taskId.Some?
            then AskPermission(s, e.payload.request, e.taskId.value).requests else s.requests
  {
  }

  /** What one move of the server may do to requests and decisions: the message e, if any, may ask. */
  ghost predicate AsksOnly(s: ServerSide, s': ServerSide, asking: Option<Envelope>) {
    && s'.decided == s.decided
    && (forall e | HadEffect(s, e) :: HadEffect(s', e))
    && (forall e | HadEffect(s', e) && !HadEffect(s, e) && e.mtype == PermissionRequest :: asking == Some(e))
    && (match asking
        case None => s'.store.requests == s.store.requests
        case Some(e) =>
          && HadEffect(s', e) && e.mtype == PermissionRequest
          && s'.store.requests ==
             if e.taskId.Some? then AskPermission(s.store, e.payload.request, e.taskId.value).requests
             else s.store.requests)
  }

  lemma TableKeepsRequests(s: ServerSide, s': ServerSide, asking: Option<Envelope>)
    requires AskedOk(s) && DecidedOk(s) && AsksOnly(s, s', asking)
    ensures AskedOk(s') && DecidedOk(s')
  {
    forall q | q in s'.store.requests ensures WasAsked(s', q, s'.store.requests[q].task) {
      if q in s.store.requests {
        var e :| HadEffect(s, e) && Asks(e, q) && e.taskId == Some(s.store.requests[q].task);
        assert HadEffect(s', e);
      } else {
        assert HadEffect(s', asking.value) && Asks(asking.value, q);
      }
    }
    forall e | HadEffect(s', e) ensures forall q | Asks(e, q) :: q in s'.store.requests {
      if HadEffect(s, e) { assert forall q | Asks(e, q) :: q in s.store.requests; }
    }
    forall q ensures Resolved(s'.store, q) <==> Resolved(s.store, q) {
    }
  }

  function Asker(e: Envelope, happens: bool): Option<Envelope> {
    if happens && e.mtype == PermissionRequest then Some(e) else None
  }

  lemma HandleAsks(s: ServerSide, e: Envelope, r: RunnerId, cfg: Settings, active: Option<TaskId>)
    requires ServerOk(s) && DroppedOk(s)
    ensures AsksOnly(s, Handle(s, e, r, cfg, active).s, Asker(e, StartsEffect(s, e)))
  {
    EffectAsks(s.store, e, r, cfg, active);
    if StartsEffect(s, e) { NewIsNotBegun(s, e); }
  }

  lemma FailureAsks(s: ServerSide, e: Envelope, r: RunnerId, cfg: Settings, active: Option<TaskId>, done: bool)
    requires ServerOk(s) && DroppedOk(s)
    ensures AsksOnly(s, FailToHandle(s, e, r, cfg, active, done), Asker(e, StartsEffect(s, e) && done))
  {
    EffectAsks(s.store, e, r, cfg, active);
    if StartsEffect(s, e) { NewIsNotBegun(s, e); }
  }

  lemma GreetingAsks(s: ServerSide, e: Envelope, upserted: bool, replayed: nat)
    ensures AsksOnly(s, OnHello(s, e).s, None) && AsksOnly(s, FailToAnswer(s, e, upserted, replayed).s, None)
  {
  }

  lemma DispatchAsks(s: ServerSide, r: RunnerId, cfg: Settings, c: Choice)
    requires Possible(Sweep(s, r).store, r, c)
    ensures AsksOnly(s, Dispatch(s, r, cfg, c).s, None)
  {
    DecisionsFrame(Sweep(s, r));
  }

  lemma ResolveKeepsRequests(s: ServerSide, request: nat, content: nat)
    requires AskedOk(s) && DecidedOk(s)
    ensures AskedOk(Resolve(s, request, content)) && DecidedOk(Resolve(s, request, content))
  {
    if IsOpen(s.store, request) {
      var s' := Resolve(s, request, content);
      assert s'.decided[..|s'.decided| - 1] == s.decided;
      forall q ensures Answers(s'.decided, q) == if Resolved(s'.store, q) then 1 else 0 {
        assert Answers(s.decided, q) == if Resolved(s.store, q) then 1 else 0;
      }
      forall q | q in s'.store.requests ensures WasAsked(s', q, s'.store.requests[q].task) {
        var e :| HadEffect(s, e) && Asks(e, q) && e.taskId == Some(s.store.requests[q].task);
        assert HadEffect(s', e);
      }
      forall e | HadEffect(s', e) ensures forall q | Asks(e, q) :: q in s'.store.requests {
        assert HadEffect(s, e);
      }
    }
  }

  lemma StepKeepsRequests(w: World, step: Step)
    requires Delivers(w) && DroppedOk(w.s) && AskedOk(w.s) && DecidedOk(w.s) && Enabled(w, step)
    ensures AskedOk(Next(w, step).s) && DecidedOk(Next(w, step).s)
  {
    match step
    case Decide(request, content) => ResolveKeepsRequests(w.s, request, content);
    case ServerReceive(active) =>
      var e := w.toServer[0];
      if w.s.session == Waiting {
        GreetingAsks(w.s, e, false, 0);
        TableKeepsRequests(w.s, OnHello(w.s, e).s, None);
      } else {
        HandleAsks(w.s, e, w.id, w.cfg, active);
        TableKeepsRequests(w.s, Handle(w.s, e, w.id, w.cfg, active).s, Asker(e, StartsEffect(w.s, e)));
      }
    case HandlerFails(done, active) =>
      var e := w.toServer[0];
      FailureAsks(w.s, e, w.id, w.cfg, active, done);
      TableKeepsRequests(w.s, Next(w, step).s, Asker(e, StartsEffect(w.s, e) && done));
    case HelloFails(upserted, replayed) =>
      GreetingAsks(w.s, w.toServer[0], upserted, replayed);
      TableKeepsRequests(w.s, Next(w, step).s, None);
    case ServerDispatch(c) =>
      DispatchAsks(w.s, w.id, w.cfg, c);
      TableKeepsRequests(w.s, Next(w, step).s, None);
    case _ => TableKeepsRequests(w.s, Next(w, step).s, None);
  }

  // ---------------------------------------------------------------- every run

  lemma {:induction false} RunKeepsRequests(w: World, steps: seq<Step>)
    requires Delivers(w) && DroppedOk(w.s) && AskedOk(w.s) && DecidedOk(w.s) && Runs(w, steps)
    ensures AskedOk(After(w, steps).s) && DecidedOk(After(w, steps).s)
    decreases |steps|
  {
    if steps != [] {
      StepKeepsRequests(w, steps[0]);
      StepKeepsDelivery(w, steps[0]);
      StepDrops(w, steps[0]);
      RunKeepsRequests(Next(w, steps[0]), steps[1..]);
    }
  }

  /**
   * Over every run the table holds exactly the requests the runner's messages made, each under the task that asked; an
   * open request has no decision and any other exactly one, on its task; and if no send of a decision failed, that is
   * also how often a request is answered, counting what is logged and what still waits.
   */
  lemma RequestsAreDecidedOnce(w0: World, steps: seq<Step>, w: World)
    requires Initial(w0) && Runs(w0, steps) && w == After(w0, steps)
    ensures AskedOk(w.s) && DecidedOk(w.s)
    ensures FailedSends(steps) == 0 ==>
              forall request :: Answers(DecisionsIn(w.s.serverLog) + w.s.unsent, request)
                                == if Resolved(w.s.store, request) then 1 else 0
  {
    InitialDelivers(w0);
    RunKeepsRequests(w0, steps);
    DecisionsAreSentOnceIff(w0, steps, w);
  }
}
