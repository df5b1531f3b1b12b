/** The runner's persisted half of the reconnect protocol: class ProtocolState of app/runner_transport.py. */
module RunnerState {
  import opened Common
  import opened Envelopes

  datatype ProtoState = ProtoState(
    nextSeq: nat,
    lastServerSeq: nat,
    lastTask: Option<TaskId>,
    registered: bool,
    pending: map<nat, Envelope>)

  const FRESH: ProtoState := ProtoState(1, 0, None, false, map[])

  /** What one save writes: the pending messages as a list, without their keys. */
  datatype Saved = Saved(
    nextSeq: int,
    lastServerSeq: int,
    lastTask: Option<TaskId>,
    registered: bool,
    pending: seq<Envelope>)

  /**
   * Loading reads field by field and stops at the first that is malformed: nothing was read of an Unreadable file, one
   * counter before a malformed lastServerSeq, and everything before a malformed item of the pending list. The last task
   * and the registered flag take any value.
   */
  datatype StateFile =
    | Missing
    | Unreadable
    | ServerSeqUnreadable(nextSeq: int)
    | PendingUnreadable(saved: Saved)
    | Readable(saved: Saved)

  /** Every pending message sits under its own sequence number. */
  ghost predicate WellKeyed(pending: map<nat, Envelope>) {
    forall k | k in pending :: pending[k].num == k
  }

  ghost function InOrder(pending: map<nat, Envelope>): seq<Envelope>
    decreases |pending|
  {
    if pending == map[] then []
    else
      var m := Least(pending.Keys);
      assert pending.Keys == (pending - {m}).Keys + {m};
      [pending[m]] + InOrder(pending - {m})
  }

  function Rebuild(items: seq<Envelope>): map<nat, Envelope> {
    if items == [] then map[]
    else
      var last := items[|items| - 1];
      Rebuild(items[..|items| - 1])[last.num := last]
  }

  ghost function Save(s: ProtoState): Saved {
    Saved(s.nextSeq, s.lastServerSeq, s.lastTask, s.registered, InOrder(s.pending))
  }

  function Load(file: StateFile): ProtoState {
    match file
    case ServerSeqUnreadable(nextSeq) => FRESH.(nextSeq := Max(1, nextSeq))
    case PendingUnreadable(saved) =>
      ProtoState(Max(1, saved.nextSeq), Max(0, saved.lastServerSeq), saved.lastTask, saved.registered, map[])
    case Readable(saved) =>
      ProtoState(
        Max(1, saved.nextSeq), Max(0, saved.lastServerSeq), saved.lastTask, saved.registered, Rebuild(saved.pending))
    case _ => FRESH
  }

  function NewEnvelope(s: ProtoState, t: MessageType, task: Option<TaskId>, payload: Payload): (ProtoState, Envelope) {
    var e := Envelope(s.nextSeq, t, task, payload);
    (s.(nextSeq := s.nextSeq + 1, pending := s.pending[e.num := e]), e)
  }

  function Acknowledge(s: ProtoState, num: nat): ProtoState {
    s.(pending := s.pending - {num})
  }

  function MarkServerMessage(s: ProtoState, e: Envelope): ProtoState {
    s.(lastServerSeq := Max(s.lastServerSeq, e.num), lastTask := if e.taskId.Some? then e.taskId else s.lastTask)
  }

  function MarkRegistered(s: ProtoState): ProtoState {
    s.(registered := true)
  }

  function DiscardType(s: ProtoState, t: MessageType): ProtoState {
    s.(pending := map k | k in s.pending && s.pending[k].mtype != t :: s.pending[k])
  }

  // ---------------------------------------------------------------- pending order and persistence

  /** Sorting loses nothing and invents nothing. */
  lemma {:induction false} InOrderContents(pending: map<nat, Envelope>)
    requires WellKeyed(pending)
    ensures forall k | k in pending :: pending[k] in InOrder(pending)
    ensures forall e | e in InOrder(pending) :: e.num in pending && pending[e.num] == e
    decreases |pending|
  {
    if pending != map[] {
      var m := Least(pending.Keys);
      assert pending.Keys == (pending - {m}).Keys + {m};
      InOrderContents(pending - {m});
      assert InOrder(pending) == [pending[m]] + InOrder(pending - {m});
      forall k | k in pending ensures pending[k] in InOrder(pending) {
        if k != m { assert k in pending - {m}; }
      }
    }
  }

  ghost predicate Ascending(items: seq<Envelope>) {
    forall i, j | 0 <= i < j < |items| :: items[i].num < items[j].num
  }

  lemma AscendingCons(first: Envelope, rest: seq<Envelope>)
    requires Ascending(rest) && forall e | e in rest :: first.num < e.num
    ensures Ascending([first] + rest)
  {
    var all := [first] + rest;
    forall i, j | 0 <= i < j < |all| ensures all[i].num < all[j].num {
      assert all[j] == rest[j - 1] && rest[j - 1] in rest;
    }
  }

  lemma LeastIsFirst(pending: map<nat, Envelope>, m: nat, rest: seq<Envelope>)
    requires m in pending && pending[m].num == m && forall k | k in pending :: m <= k
    requires forall e | e in rest :: e.num in pending - {m}
    ensures forall e | e in rest :: pending[m].num < e.num
  {
  }

  /** The pending list is in strictly ascending sequence order. */
  lemma {:induction false} InOrderAscends(pending: map<nat, Envelope>)
    requires WellKeyed(pending)
    ensures Ascending(InOrder(pending))
    decreases |pending|
  {
    if pending != map[] {
      var m := Least(pending.Keys);
      assert pending.Keys == (pending - {m}).Keys + {m};
      var rest := InOrder(pending - {m});
      assert InOrder(pending) == [pending[m]] + rest;
      InOrderAscends(pending - {m});
      InOrderContents(pending - {m});
      LeastIsFirst(pending, m, rest);
      AscendingCons(pending[m], rest);
    }
  }

  lemma {:induction false} RebuildContents(items: seq<Envelope>)
    ensures WellKeyed(Rebuild(items))
    ensures forall e | e in items :: e.num in Rebuild(items)
    ensures forall k | k in Rebuild(items) :: Rebuild(items)[k] in items
  {
    if items != [] {
      var front := items[..|items| - 1];
      RebuildContents(front);
      assert items == front + [items[|items| - 1]];
    }
  }

  /** Restarting the runner gives back exactly the state it saved, and only well-keyed states have this. */
  lemma SaveLoadRoundTrip(s: ProtoState)
    ensures Load(Readable(Save(s))) == s <==> s.nextSeq >= 1 && WellKeyed(s.pending)
  {
    RebuildContents(InOrder(s.pending));
    if WellKeyed(s.pending) {
      InOrderContents(s.pending);
      var back := Rebuild(InOrder(s.pending));
      assert back.Keys == s.pending.Keys by {
        forall k | k in s.pending ensures k in back { assert s.pending[k] in InOrder(s.pending); }
      }
      assert back == s.pending;
    }
  }

  // ---------------------------------------------------------------- the class

  class ProtocolState {
    var nextSeq: nat
    var lastServerSeq: nat
    var lastTask: Option<TaskId>
    var registered: bool
    var pending: map<nat, Envelope>
    var file: StateFile

    ghost function View(): ProtoState
      reads this
    {
      ProtoState(nextSeq, lastServerSeq, lastTask, registered, pending)
    }

    /** Between method calls, loading the file would give back the fields in memory. */
    ghost predicate Valid()
      reads this
    {
      nextSeq >= 1 && WellKeyed(pending) && Load(file) == View()
    }

    constructor (path: StateFile)
      ensures Valid() && View() == Load(path) && file == path
      ensures path.Missing? || path.Unreadable? ==>
                nextSeq == 1 && lastServerSeq == 0 && !registered && pending == map[]
      ensures path.ServerSeqUnreadable? ==> nextSeq == Max(1, path.nextSeq) && !registered && pending == map[]
      ensures path.PendingUnreadable? || path.Readable? ==>
                && nextSeq == Max(1, path.saved.nextSeq) && lastServerSeq == Max(0, path.saved.lastServerSeq)
                && lastTask == path.saved.lastTask && registered == path.saved.registered
      ensures path.PendingUnreadable? ==> pending == map[]
    {
      var loaded := Load(path);
      nextSeq, lastServerSeq := loaded.nextSeq, loaded.lastServerSeq;
      lastTask, registered, pending := loaded.lastTask, loaded.registered, loaded.pending;
      file := path;
      new;
      if path.Readable? { RebuildContents(path.saved.pending); }
    }

    method PendingMessages() returns (items: seq<Envelope>)
      ensures items == InOrder(pending)
    {
      var rest := pending;
      items := [];
      while rest != map[]
        invariant items + InOrder(rest) == InOrder(pending)
        decreases |rest|
      {
        LeastExists(rest.Keys);
        var k :| k in rest && forall j | j in rest :: k <= j;
        assert k == Least(rest.Keys);
        assert rest.Keys == (rest - {k}).Keys + {k};
        assert InOrder(rest) == [rest[k]] + InOrder(rest - {k});
        items := items + [rest[k]];
        rest := rest - {k};
      }
    }

    method SaveLocked()
      requires nextSeq >= 1 && WellKeyed(pending)
      modifies this`file
      ensures Valid() && file == Readable(Save(View()))
    {
      var items := PendingMessages();
      file := Readable(Saved(nextSeq, lastServerSeq, lastTask, registered, items));
      SaveLoadRoundTrip(View());
    }

    method NewMessage(t: MessageType, task: Option<TaskId>, payload: Payload) returns (e: Envelope)
      requires Valid()
      modifies this
      ensures Valid()
      ensures (View(), e) == NewEnvelope(old(View()), t, task, payload)
      ensures e == Envelope(old(nextSeq), t, task, payload) && nextSeq == old(nextSeq) + 1
      ensures pending == old(pending)[e.num := e]
      ensures lastServerSeq == old(lastServerSeq) && registered == old(registered)
      ensures file == Readable(Save(View()))
    {
      e := Envelope(nextSeq, t, task, payload);
      nextSeq := nextSeq + 1;
      pending := pending[e.num := e];
      SaveLocked();
    }

    method AcknowledgeMessage(num: nat)
      requires Valid()
      modifies this
      ensures Valid() && View() == Acknowledge(old(View()), num)
      ensures pending == old(pending) - {num} && nextSeq == old(nextSeq) && lastServerSeq == old(lastServerSeq)
    {
      pending := pending - {num};
      SaveLocked();
    }

    method MarkServer(e: Envelope)
      requires Valid()
      modifies this
      ensures Valid() && View() == MarkServerMessage(old(View()), e)
      ensures lastServerSeq >= old(lastServerSeq) && lastServerSeq >= e.num
      ensures lastServerSeq == old(lastServerSeq) || lastServerSeq == e.num
      ensures lastTask == (if e.taskId.Some? then e.taskId else old(lastTask)) && pending == old(pending)
    {
      lastServerSeq := Max(lastServerSeq, e.num);
      if e.taskId.Some? {
        lastTask := e.taskId;
      }
      SaveLocked();
    }

    method MarkAsRegistered()
      requires Valid()
      modifies this
      ensures Valid() && View() == MarkRegistered(old(View()))
      ensures registered && pending == old(pending) && nextSeq == old(nextSeq)
    {
      registered := true;
      SaveLocked();
    }

    method Discard(t: MessageType)
      requires Valid()
      modifies this
      ensures Valid() && View() == DiscardType(old(View()), t)
      ensures forall k :: k in pending <==> k in old(pending) && old(pending)[k].mtype != t
      ensures forall k | k in pending :: pending[k] == old(pending)[k]
    {
      pending := map k | k in pending && pending[k].mtype != t :: pending[k];
      SaveLocked();
    }
  }
}
