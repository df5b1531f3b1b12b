/**
 * The reconnect protocol as a state machine: one runner, one server, and the connection between them.
 * A connection is two FIFO queues; losing it keeps a prefix of each.
 */
module Reconnect {
  import opened Common
  import opened Envelopes
  import opened RunnerState
  import opened RunnerTransport
  import opened TaskQueue
  import opened Tables
  import opened MessageLog
  import opened Gateway

  /** `handling` is the server message the runner has taken off the connection and not yet marked as handled. */
  datatype World = World(
    id: RunnerId,
    cfg: Settings,
    r: RunnerSide,
    handling: Option<Envelope>,
    s: ServerSide,
    toServer: seq<Envelope>,
    toRunner: seq<Envelope>)

  datatype Step =
    | AppSend(t: MessageType, task: Option<TaskId>, payload: Payload)
    | Resend(num: nat)
    | Keep(move: BookMove)
    | Connect
    | ServerReceive(active: Option<TaskId>)
    | HandlerFails(done: bool, active: Option<TaskId>)
    | HelloFails(upserted: bool, replayed: nat)
    | ServerDispatch(choice: Choice)
    | DecisionFails
    | RunnerReceive
    | RunnerMark
    | Disconnect(keepUp: nat, keepDown: nat)
    | Restart(upgrade: nat)
    | Crash(upgrade: nat, cut: nat, keep: nat)
    | Decide(request: nat, content: nat)
    | Elsewhere(store: Store, minVersion: nat)

  /** A fresh runner, a server that has never heard of it, no connection. */
  ghost predicate Initial(w: World) {
    && w.r == RunnerSide(FRESH, false, false, false, w.r.version, NO_TASKS, [], [])
    && w.handling == None
    && w.s == ServerSide(Closed, {}, w.s.minVersion, false, [], [], w.s.store, [], [], {}, [])
    && w.s.store.requests == map[]
    && w.toServer == [] && w.toRunner == []
  }

  /**
   * Runner and gateway take turns in any order. A server message is handled in two steps or, if it is an
   * assignment, in up to five (Keep), because other threads may send as soon as `ready` is set and take tasks at any
   * time, and the process may die between handling and marking (Restart) or inside the handler (Crash). The gateway may
   * fail, or its process die, while it answers a first message (HelloFails) or at any point between recording a message
   * and logging its Ack (HandlerFails; a change of the tables half way is one of Elsewhere). A send of the gateway
   * fails only on a connection that is lost, and ends its pass (DecisionFails). A new connection is opened only after
   * the old session has ended at both ends. Users decide permission requests at any time (Decide); everything else that
   * changes the other tables is one of Elsewhere.
   */
  ghost predicate Enabled(w: World, step: Step) {
    match step
    case AppSend(t, _, _) => IsApplication(t)
    case Resend(num) => num in w.r.p.pending && !IsHello(w.r.p.pending[num].mtype)
    case Keep(move) => move.CheckTask? ==> !w.r.books.check.Idle?
    case Connect => !w.r.linked && w.handling.None? && !w.r.stopped
    case ServerReceive(_) => w.toServer != [] && w.s.session != Closed
    case HandlerFails(_, _) => w.toServer != [] && w.s.session == Live
    case HelloFails(_, _) => w.toServer != [] && w.s.session == Waiting
    case ServerDispatch(c) => w.s.session == Live && Possible(Sweep(w.s, w.id).store, w.id, c)
    case DecisionFails => w.s.session == Live && !w.r.linked && w.s.unsent != []
    case RunnerReceive => w.toRunner != [] && w.handling.None? && !w.r.stopped
    case RunnerMark => w.handling.Some? && w.r.books.check.Idle?
    case Disconnect(up, down) => w.r.linked && up <= |w.toServer| && down <= |w.toRunner|
    case Restart(_) => true
    case Crash(_, cut, keep) =>
      && w.toRunner != [] && w.handling.None? && !w.r.stopped
      && keep <= |w.toServer + CutShort(w.r, w.toRunner[0], cut).out|
    case Decide(_, _) => true
    case Elsewhere(_, _) => true
  }

  /** What the server sends arrives only while the connection stands. */
  function Deliver(w: World, out: seq<Envelope>): seq<Envelope> {
    if w.r.linked then w.toRunner + out else w.toRunner
  }

  ghost function RunnerMove(w: World, m: Moved): World {
    w.(r := m.r, toServer := w.toServer + m.out)
  }

  ghost function ServerMove(w: World, m: Reply): World {
    w.(s := m.s, toRunner := Deliver(w, m.out),
       r := if m.s.session == Closed then w.r.(linked := false) else w.r)
  }

  ghost function Receive(w: World): World
    requires w.toRunner != []
  {
    var e := w.toRunner[0];
    RunnerMove(w.(toRunner := w.toRunner[1..]), Begin(w.r, e)).(handling := Some(e))
  }

  /** The rest of the handler, and then the mark. */
  ghost function Finished(r: RunnerSide, e: Envelope): Moved {
    if Readies(e) then Flush(r, e) else Moved(r, [])
  }

  /** A new process: the state file is all that is left. */
  ghost function Restarted(r: RunnerSide, version: nat): RunnerSide {
    r.(p := Load(Readable(Save(r.p))), linked := false, ready := false, stopped := false,
       version := version, books := NO_TASKS)
  }

  ghost function Next(w: World, step: Step): World
    requires Enabled(w, step)
  {
    match step
    case AppSend(t, task, payload) => RunnerMove(w, Send(w.r, t, task, payload))
    case Resend(num) => w.(toServer := w.toServer + TrySend(w.r, w.r.p.pending[num]))
    case Keep(move) => w.(r := w.r.(books := Move(w.r.books, move)))
    case Connect =>
      var m := Open(w.r);
      w.(r := m.r, toServer := m.out, toRunner := [], s := w.s.(session := Waiting, cancelSent := {}))
    case ServerReceive(active) =>
      var e := w.toServer[0];
      var rest := w.(toServer := w.toServer[1..]);
      ServerMove(rest, if w.s.session == Waiting then OnHello(w.s, e) else Handle(w.s, e, w.id, w.cfg, active))
    case HandlerFails(done, active) =>
      w.(s := FailToHandle(w.s, w.toServer[0], w.id, w.cfg, active, done), toServer := w.toServer[1..],
         r := w.r.(linked := false))
    case HelloFails(upserted, replayed) =>
      ServerMove(w.(toServer := w.toServer[1..]), FailToAnswer(w.s, w.toServer[0], upserted, replayed))
    case ServerDispatch(c) => ServerMove(w, Dispatch(w.s, w.id, w.cfg, c))
    case DecisionFails => w.(s := LoseDecision(w.s))
    case RunnerReceive => Receive(w)
    case RunnerMark =>
      var e := w.handling.value;
      var m := Finished(w.r, e);
      RunnerMove(w, m).(r := Mark(m.r, e), handling := None)
    case Disconnect(up, down) =>
      w.(r := w.r.(linked := false), toServer := w.toServer[..up], toRunner := w.toRunner[..down])
    case Restart(version) => w.(r := Restarted(w.r, version), toRunner := [], handling := None)
    case Crash(version, cut, keep) =>
      var m := CutShort(w.r, w.toRunner[0], cut);
      w.(r := Restarted(m.r, version), toServer := (w.toServer + m.out)[..keep], toRunner := [])
    case Decide(request, content) => w.(s := Resolve(w.s, request, content))
    case Elsewhere(store, minVersion) =>
      w.(s := w.s.(store := store.(requests := w.s.store.requests), minVersion := minVersion))
  }

  ghost predicate Runs(w: World, steps: seq<Step>)
    decreases |steps|
  {
    steps == [] || (Enabled(w, steps[0]) && Runs(Next(w, steps[0]), steps[1..]))
  }

  ghost function After(w: World, steps: seq<Step>): World
    requires Runs(w, steps)
    decreases |steps|
  {
    if steps == [] then w else After(Next(w, steps[0]), steps[1..])
  }

  /** Some run from the start leads here. */
  ghost predicate Reachable(w: World) {
    exists w0, steps :: Initial(w0) && Runs(w0, steps) && After(w0, steps) == w
  }

  ghost predicate LeadsTo(w: World, later: World) {
    exists steps :: Runs(w, steps) && After(w, steps) == later
  }

  lemma RunsCons(w: World, step: Step, rest: seq<Step>)
    requires Enabled(w, step) && Runs(Next(w, step), rest)
    ensures Runs(w, [step] + rest) && After(w, [step] + rest) == After(Next(w, step), rest)
  {
    assert ([step] + rest)[1..] == rest;
  }

  lemma RunsUncons(w: World, steps: seq<Step>, end: World) returns (w1: World)
    requires steps != [] && Runs(w, steps) && After(w, steps) == end
    ensures Enabled(w, steps[0]) && w1 == Next(w, steps[0]) && Runs(w1, steps[1..]) && After(w1, steps[1..]) == end
  {
    w1 := Next(w, steps[0]);
  }

  lemma RunsLonger(w: World, a: seq<Step>, b: seq<Step>, w1: World, end: World)
    requires a != [] && Enabled(w, a[0]) && w1 == Next(w, a[0])
    requires Runs(w1, a[1..] + b) && After(w1, a[1..] + b) == end
    ensures Runs(w, a + b) && After(w, a + b) == end
  {
    assert (a + b)[1..] == a[1..] + b;
  }

  lemma {:induction false} RunsCompose(w: World, a: seq<Step>, mid: World, b: seq<Step>, end: World)
    requires Runs(w, a) && After(w, a) == mid && Runs(mid, b) && After(mid, b) == end
    ensures Runs(w, a + b) && After(w, a + b) == end
    decreases |a|
  {
    if a != [] {
      var w1 := RunsUncons(w, a, mid);
      RunsCompose(w1, a[1..], mid, b, end);
      RunsLonger(w, a, b, w1, end);
    } else {
      assert a + b == b;
    }
  }

  lemma OneStep(w: World, step: Step)
    requires Enabled(w, step)
    ensures Runs(w, [step]) && After(w, [step]) == Next(w, step)
  {
    RunsCons(w, step, []);
    assert [step] + [] == [step];
  }

  lemma NextIsReachable(w: World, step: Step)
    requires Reachable(w) && Enabled(w, step)
    ensures Reachable(Next(w, step))
  {
    OneStep(w, step);
    LeadIsReachable(w, [step], Next(w, step));
  }

  lemma LeadIsReachable(w: World, more: seq<Step>, later: World)
    requires Reachable(w) && Runs(w, more) && After(w, more) == later
    ensures Reachable(later)
  {
    var w0, steps :| Initial(w0) && Runs(w0, steps) && After(w0, steps) == w;
    RunsCompose(w0, steps, w, more, later);
  }
}
