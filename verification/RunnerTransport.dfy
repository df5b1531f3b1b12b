/** The runner's end of the connection: class RunnerProtocolClient of app/runner_transport.py. */
module RunnerTransport {
  import opened Common
  import opened Envelopes
  import opened RunnerState
  import opened TaskQueue

  /**
   * The runner process. `issued` and `handled` are history variables: every envelope ever numbered, in order, and every
   * server envelope given to _handle_server_message since the registration was first accepted.
   */
  datatype RunnerSide = RunnerSide(
    p: ProtoState,
    linked: bool,
    ready: bool,
    stopped: bool,
    version: nat,
    books: Books,
    issued: seq<Envelope>,
    handled: seq<Envelope>)

  /** The runner after a move, and what the move put on the wire. */
  datatype Moved = Moved(r: RunnerSide, out: seq<Envelope>)

  function Alloc(r: RunnerSide, t: MessageType, task: Option<TaskId>, payload: Payload): (RunnerSide, Envelope) {
    var (p, e) := NewEnvelope(r.p, t, task, payload);
    (r.(p := p, issued := r.issued + [e]), e)
  }

  /** _try_send: nothing leaves before the handshake is acknowledged or without a connection. */
  function TrySend(r: RunnerSide, e: Envelope): seq<Envelope> {
    if r.ready && r.linked then [e] else []
  }

  function Send(r: RunnerSide, t: MessageType, task: Option<TaskId>, payload: Payload): Moved {
    var (r1, e) := Alloc(r, t, task, payload);
    Moved(if t == Ack then r1.(p := Acknowledge(r1.p, e.num)) else r1, TrySend(r, e))
  }

  function SendAck(r: RunnerSide, e: Envelope): Moved {
    Send(r, Ack, e.taskId, EMPTY.(ackSeq := Some(e.num)))
  }

  function WithoutHellos(items: seq<Envelope>): seq<Envelope> {
    if items == [] then []
    else WithoutHellos(items[..|items| - 1]) +
         (if IsHello(items[|items| - 1].mtype) then [] else [items[|items| - 1]])
  }

  lemma NextWithoutHellos(items: seq<Envelope>, i: nat)
    requires i < |items|
    ensures WithoutHellos(items[..i + 1]) ==
            WithoutHellos(items[..i]) + (if IsHello(items[i].mtype) then [] else [items[i]])
  {
    assert items[..i + 1][..i] == items[..i];
  }

  /** _flush_pending: all pending messages except the hellos, in sequence order. */
  ghost function Flushed(r: RunnerSide): seq<Envelope> {
    if r.ready && r.linked then WithoutHellos(InOrder(r.p.pending)) else []
  }

  /** A new connection: Register before the first acceptance, Reconnect with the watermark ever after. */
  function Open(r: RunnerSide): Moved {
    var r1 := r.(linked := true, ready := false);
    var (r2, e) :=
      if r.p.registered
      then Alloc(r1, Reconnect, r.p.lastTask, EMPTY.(lastSeq := r.p.lastServerSeq, version := r.version))
      else Alloc(r1, Register, None, EMPTY.(version := r.version));
    Moved(r2, [e])
  }

  /** The answers that make the runner ready and are followed by a flush. */
  predicate Readies(e: Envelope) {
    (e.mtype == RegisterAck && e.payload.accepted) || (e.mtype == Ack && e.payload.reconnected)
  }

  /** Both answers to an assignment; its check against the active and the queued tasks is still to come. */
  function OnAssign(r: RunnerSide, e: Envelope): Moved {
    var m1 := SendAck(r, e);
    var m2 := Send(m1.r, TaskAccepted, Some(e.payload.task), EMPTY);
    Moved(m2.r.(books := CheckBegun(m2.r.books, e.payload.task)), m1.out + m2.out)
  }

  /** A message is in the handled history from the accepted registration on. */
  function Noted(r: RunnerSide, e: Envelope): RunnerSide {
    if r.p.registered || (e.mtype == RegisterAck && e.payload.accepted)
    then r.(handled := r.handled + [e]) else r
  }

  function AckPayload(r: RunnerSide, e: Envelope): RunnerSide {
    if e.payload.ackSeq.Some? then r.(p := Acknowledge(r.p, e.payload.ackSeq.value)) else r
  }

  function Readied(r: RunnerSide, e: Envelope): RunnerSide {
    if e.mtype == RegisterAck
    then r.(p := DiscardType(MarkRegistered(r.p), Register), ready := true)
    else r.(p := DiscardType(r.p, Reconnect), ready := true)
  }

  /** _handle_server_message up to the flush of a readying answer or the check of an assignment. */
  function Begin(r: RunnerSide, e: Envelope): Moved {
    var r0 := AckPayload(Noted(r, e), e);
    if Readies(e) then Moved(Readied(r0, e), [])
    else if e.mtype == RegisterAck then Moved(r0.(stopped := true), [])
    else if e.mtype == TaskAssign then OnAssign(r0, e)
    else if e.mtype == CancelTask || e.mtype == PermissionResult then SendAck(r0, e)
    else Moved(r0, [])
  }

  /** The rest of _handle_server_message for a readying answer. */
  ghost function Flush(r: RunnerSide, e: Envelope): Moved {
    if e.mtype == RegisterAck then
      var m := Send(r, Capability, None, EMPTY);
      Moved(m.r, Flushed(r) + m.out)
    else Moved(r, Flushed(r))
  }

  /** All of _handle_server_message, with nothing in between. */
  ghost function Complete(r: RunnerSide, e: Envelope): Moved {
    var b := Begin(r, e);
    if Readies(e) then Flush(b.r, e)
    else if e.mtype == TaskAssign then Moved(b.r.(books := Enqueued(r.books, e.payload.task)), b.out)
    else b
  }

  /**
   * What _handle_server_message has persisted and sent when the process dies inside it, after `cut` of its saves: the
   * acknowledgement is absorbed first, registration is marked before Register is discarded, and an Ack of the runner's
   * own is pending from its numbering until it has been sent.
   */
  function CutShort(r: RunnerSide, e: Envelope, cut: nat): Moved {
    var r0 := AckPayload(Noted(r, e), e);
    if cut == 0 then Moved(r0, [])
    else if e.mtype == RegisterAck && e.payload.accepted then Moved(r0.(p := MarkRegistered(r0.p)), [])
    else if e.mtype == TaskAssign && cut > 1 then SendAck(r0, e)
    else if e.mtype == TaskAssign || e.mtype == CancelTask || e.mtype == PermissionResult then
      var (r1, ack) := Alloc(r0, Ack, e.taskId, EMPTY.(ackSeq := Some(e.num)));
      Moved(r1, TrySend(r0, ack))
    else Moved(r0, [])
  }

  function Mark(r: RunnerSide, e: Envelope): RunnerSide {
    r.(p := MarkServerMessage(r.p, e))
  }

  // ---------------------------------------------------------------- the class

  class RunnerProtocolClient {
    const state: ProtocolState
    const version: nat
    var linked: bool
    var ready: bool
    var stopped: bool
    var active: Option<TaskId>
    var queued: set<TaskId>
    var tasks: seq<TaskId>
    var taken: Taken
    var check: Check
    var wire: seq<Envelope>
    ghost var issued: seq<Envelope>
    ghost var handled: seq<Envelope>

    ghost function View(): RunnerSide
      reads this, state
    {
      RunnerSide(state.View(), linked, ready, stopped, version, Queue(), issued, handled)
    }

    ghost function Queue(): Books
      reads `active, `queued, `tasks, `taken, `check
    {
      Books(active, queued, tasks, taken, check)
    }

    ghost predicate Valid()
      reads this, state
    {
      state.Valid()
    }

    constructor (state: ProtocolState, version: nat)
      requires state.Valid()
      ensures Valid() && this.state == state && wire == []
      ensures View() == RunnerSide(state.View(), false, false, false, version, NO_TASKS, [], [])
    {
      this.state, this.version := state, version;
      linked, ready, stopped := false, false, false;
      active, queued, tasks, taken, check, wire := None, {}, [], NotTaken, Idle, [];
      issued, handled := [], [];
    }

    method TrySendOne(e: Envelope)
      requires Valid()
      modifies this`wire
      ensures wire == old(wire) + TrySend(View(), e)
    {
      if ready && linked {
        wire := wire + [e];
      }
    }

    method SendMessage(t: MessageType, task: Option<TaskId>, payload: Payload) returns (e: Envelope)
      requires Valid()
      modifies this, state
      ensures Valid()
      ensures View() == Send(old(View()), t, task, payload).r
      ensures wire == old(wire) + Send(old(View()), t, task, payload).out
      ensures e == Envelope(old(state.nextSeq), t, task, payload) && state.nextSeq == e.num + 1
      ensures wire == old(wire) + if ready && linked then [e] else []
      ensures state.pending == if t == Ack then old(state.pending) - {e.num} else old(state.pending)[e.num := e]
    {
      e := state.NewMessage(t, task, payload);
      issued := issued + [e];
      TrySendOne(e);
      if t == Ack {
        state.AcknowledgeMessage(e.num);
      }
    }

    method AckServer(e: Envelope)
      requires Valid()
      modifies this, state
      ensures Valid()
      ensures View() == SendAck(old(View()), e).r
      ensures wire == old(wire) + SendAck(old(View()), e).out
    {
      var _ := SendMessage(Ack, e.taskId, EMPTY.(ackSeq := Some(e.num)));
    }

    method Connect()
      requires Valid()
      modifies this, state
      ensures Valid()
      ensures View() == Open(old(View())).r
      ensures wire == Open(old(View())).out
      ensures linked && !ready && |wire| == 1 && wire[0].num == old(state.nextSeq) && wire[0].payload.version == version
      ensures wire[0].mtype == if old(state.registered) then Reconnect else Register
      ensures old(state.registered) ==>
                wire[0].payload.lastSeq == old(state.lastServerSeq) && wire[0].taskId == old(state.lastTask)
    {
      linked, ready, wire := true, false, [];
      var e;
      if state.registered {
        e := state.NewMessage(Reconnect, state.lastTask, EMPTY.(lastSeq := state.lastServerSeq, version := version));
      } else {
        e := state.NewMessage(Register, None, EMPTY.(version := version));
      }
      issued := issued + [e];
      wire := wire + [e];
    }

    method FlushPending()
      requires Valid()
      modifies this`wire
      ensures wire == old(wire) + Flushed(View())
    {
      var items := state.PendingMessages();
      var i := 0;
      while i < |items|
        invariant 0 <= i <= |items|
        invariant wire == old(wire) + (if ready && linked then WithoutHellos(items[..i]) else [])
      {
        NextWithoutHellos(items, i);
        if !IsHello(items[i].mtype) {
          TrySendOne(items[i]);
        }
        i := i + 1;
      }
      assert items[..i] == items;
    }

    method OnReadied(e: Envelope)
      requires Valid() && Readies(e)
      modifies this, state
      ensures Valid()
      ensures View() == Flush(Readied(old(View()), e), e).r
      ensures wire == old(wire) + Flush(Readied(old(View()), e), e).out
    {
      ghost var start := View();
      if e.mtype == RegisterAck {
        state.MarkAsRegistered();
        state.Discard(Register);
      } else {
        state.Discard(Reconnect);
      }
      ready := true;
      assert View() == Readied(start, e);
      FlushPending();
      if e.mtype == RegisterAck {
        var _ := SendMessage(Capability, None, EMPTY);
      }
    }

    method OnTaskAssign(e: Envelope)
      requires Valid() && check.Idle?
      modifies this, state
      ensures Valid() && check.Idle?
      ensures View() == OnAssign(old(View()), e).r.(books := Enqueued(old(Queue()), e.payload.task))
      ensures active == old(active)
      ensures var t := e.payload.task;
              if old(active) != Some(t) && t !in old(queued)
              then tasks == old(tasks) + [t] && queued == old(queued) + {t}
              else tasks == old(tasks) && queued == old(queued)
      ensures wire == old(wire) + OnAssign(old(View()), e).out
    {
      AckServer(e);
      var _ := SendMessage(TaskAccepted, Some(e.payload.task), EMPTY);
      CheckAssignment(e.payload.task);
    }

    /** The whole check, with nothing in between: a task that is neither active nor queued is queued. */
    method CheckAssignment(t: TaskId)
      requires check.Idle?
      modifies `queued, `tasks, `check
      ensures check.Idle? && Queue() == Enqueued(old(Queue()), t)
      ensures if active != Some(t) && t !in old(queued)
              then tasks == old(tasks) + [t] && queued == old(queued) + {t}
              else tasks == old(tasks) && queued == old(queued)
    {
      UndisturbedCheck(Queue(), t);
      check := Comparing(t);
      CheckNext();
      CheckNext();
      CheckNext();
    }

    /** The handler's next read or write: the active task, the set of identifiers, or the queue. */
    method CheckNext()
      modifies `queued, `tasks, `check
      ensures Queue() == Move(old(Queue()), CheckTask)
    {
      match check
      case Idle =>
      case Comparing(t) =>
        if active == Some(t) {
          check := Idle;
        } else {
          check := Searching(t, taken == Dropped(t) && t !in queued);
        }
      case Searching(t, _) =>
        if t in queued {
          check := Idle;
        } else {
          queued, check := queued + {t}, Putting(t);
        }
      case Putting(t) =>
        tasks, check := tasks + [t], Idle;
    }

    method AbsorbAck(e: Envelope)
      requires Valid()
      modifies this, state
      ensures Valid() && View() == AckPayload(Noted(old(View()), e), e) && wire == old(wire)
    {
      if state.registered || (e.mtype == RegisterAck && e.payload.accepted) {
        handled := handled + [e];
      }
      if e.payload.ackSeq.Some? {
        state.AcknowledgeMessage(e.payload.ackSeq.value);
      }
    }

    method HandleServerMessage(e: Envelope)
      requires Valid() && check.Idle?
      modifies this, state
      ensures Valid() && check.Idle?
      ensures View() == Complete(old(View()), e).r
      ensures wire == old(wire) + Complete(old(View()), e).out
    {
      AbsorbAck(e);
      if Readies(e) {
        OnReadied(e);
      } else if e.mtype == RegisterAck {
        stopped := true;
      } else if e.mtype == TaskAssign {
        OnTaskAssign(e);
      } else if e.mtype == CancelTask || e.mtype == PermissionResult {
        AckServer(e);
      }
    }

    /** One turn of the receive loop: handle first, then advance the watermark. */
    method Receive(e: Envelope)
      requires Valid() && check.Idle?
      modifies this, state
      ensures Valid() && check.Idle?
      ensures View() == Mark(Complete(old(View()), e).r, e)
      ensures wire == old(wire) + Complete(old(View()), e).out
    {
      HandleServerMessage(e);
      state.MarkServer(e);
    }

    /** next_task while no other thread interferes: the oldest queued task becomes the active one. */
    method NextTask() returns (task: Option<TaskId>)
      requires taken.NotTaken?
      modifies `active, `queued, `tasks, `taken, `check
      ensures Queue() == Activating(Discarding(Taking(old(Queue()))))
      ensures task == if old(tasks) == [] then None else Some(old(tasks)[0])
      ensures task.Some? ==> active == task && tasks == old(tasks)[1..] && queued == old(queued) - {task.value}
      ensures task.None? ==> active == old(active) && tasks == old(tasks) && queued == old(queued)
    {
      if tasks == [] {
        return None;
      }
      task := Some(tasks[0]);
      GetTask();
      DiscardTaken();
      ActivateTaken();
    }

    method GetTask()
      requires taken.NotTaken? && tasks != []
      modifies `tasks, `taken
      ensures Queue() == Move(old(Queue()), TakeTask)
      ensures taken == Got(old(tasks)[0]) && tasks == old(tasks)[1..]
    {
      tasks, taken := tasks[1..], Got(tasks[0]);
    }

    /** `check` is touched by the history value only. */
    method DiscardTaken()
      requires taken.Got?
      modifies `queued, `taken, `check
      ensures Queue() == Move(old(Queue()), DiscardTask)
      ensures taken == Dropped(old(taken.t)) && queued == old(queued) - {old(taken.t)}
    {
      var t := taken.t;
      queued, taken := queued - {t}, Dropped(t);
      if check.Searching? && check.t == t {
        check := Searching(t, true);
      }
    }

    method ActivateTaken()
      requires taken.Dropped?
      modifies `active, `taken
      ensures Queue() == Move(old(Queue()), ActivateTask)
      ensures active == Some(old(taken.t)) && taken == NotTaken
    {
      active, taken := Some(taken.t), NotTaken;
    }

    method TaskFinished(task: TaskId)
      modifies `active
      ensures Queue() == Move(old(Queue()), FinishTask(task))
      ensures active == if old(active) == Some(task) then None else old(active)
    {
      if active == Some(task) {
        active := None;
      }
    }
  }
}
