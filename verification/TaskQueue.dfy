/**
 * The runner's queue of assigned tasks (class RunnerProtocolClient of app/runner_transport.py): the main thread takes
 * tasks and finishes them, the receiving thread queues them, and no lock orders their reads and writes.
 */
module TaskQueue {
  import opened Common

  /** next_task in the main thread: nothing in hand, off the queue, or off the queue and out of the set. */
  datatype Taken = NotTaken | Got(t: TaskId) | Dropped(t: TaskId)

  /**
   * Where the handler of an assignment is: about to read the active task, about to look into the set of identifiers,
   * or about to put the task on the queue. `met` is a history value: since the handler read the active task, or just
   * then, the task was out of the set and not yet the active one.
   */
  datatype Check = Idle | Comparing(t: TaskId) | Searching(t: TaskId, met: bool) | Putting(t: TaskId)

  datatype Books = Books(active: Option<TaskId>, queued: set<TaskId>, tasks: seq<TaskId>, taken: Taken, check: Check)

  const NO_TASKS: Books := Books(None, {}, [], NotTaken, Idle)

  datatype BookMove = TakeTask | DiscardTask | ActivateTask | FinishTask(t: TaskId) | CheckTask

  function Taking(b: Books): Books {
    if b.tasks != [] && b.taken.NotTaken? then b.(tasks := b.tasks[1..], taken := Got(b.tasks[0])) else b
  }

  function Discarding(b: Books): Books {
    if !b.taken.Got? then b
    else
      var t := b.taken.t;
      b.(queued := b.queued - {t}, taken := Dropped(t),
         check := if b.check.Searching? && b.check.t == t then Searching(t, true) else b.check)
  }

  function Activating(b: Books): Books {
    if b.taken.Dropped? then b.(active := Some(b.taken.t), taken := NotTaken) else b
  }

  function Finishing(b: Books, t: TaskId): Books {
    if b.active == Some(t) then b.(active := None) else b
  }

  /** One read or write of the assignment handler. */
  function Checking(b: Books): Books {
    match b.check
    case Idle => b
    case Comparing(t) =>
      if b.active == Some(t) then b.(check := Idle)
      else b.(check := Searching(t, b.taken == Dropped(t) && t !in b.queued))
    case Searching(t, _) =>
      if t in b.queued then b.(check := Idle) else b.(queued := b.queued + {t}, check := Putting(t))
    case Putting(t) => b.(tasks := b.tasks + [t], check := Idle)
  }

  function Move(b: Books, move: BookMove): Books {
    match move
    case TakeTask => Taking(b)
    case DiscardTask => Discarding(b)
    case ActivateTask => Activating(b)
    case FinishTask(t) => Finishing(b, t)
    case CheckTask => Checking(b)
  }

  /** The handler of an assignment comes to its check. */
  function CheckBegun(b: Books, t: TaskId): Books {
    b.(check := Comparing(t))
  }

  /** What the check does with nothing in between. */
  function Enqueued(b: Books, t: TaskId): Books {
    if b.active != Some(t) && t !in b.queued then b.(queued := b.queued + {t}, tasks := b.tasks + [t]) else b
  }

  lemma UndisturbedCheck(b: Books, t: TaskId)
    requires b.check.Idle?
    ensures Checking(Checking(Checking(CheckBegun(b, t)))) == Enqueued(b, t)
  {
  }

  // ---------------------------------------------------------------- what always holds

  /** The task waits in the queue, or is about to. */
  predicate Waits(b: Books, t: TaskId) {
    t in b.tasks || b.check == Putting(t)
  }

  /** The set holds what waits and what has just been got; nothing waits twice. */
  ghost predicate QueueOk(b: Books) {
    && (forall t :: t in b.queued <==> Waits(b, t) || b.taken == Got(t))
    && (forall i, j | 0 <= i < j < |b.tasks| :: b.tasks[i] != b.tasks[j])
    && (b.check.Putting? ==> b.check.t !in b.tasks)
    && (b.taken.Got? ==> !Waits(b, b.taken.t))
  }

  /** The task is in the main thread's hands and the set no longer says so. */
  predicate Unseen(b: Books, t: TaskId) {
    t !in b.queued && (b.active == Some(t) || b.taken == Dropped(t))
  }

  /** A handler that has read the active task and could still queue one being worked on has met the gap. */
  predicate SearchOk(b: Books) {
    b.check.Searching? ==>
      && (b.check.met ==> b.check.t !in b.queued)
      && (Unseen(b, b.check.t) ==> b.check.met)
  }

  ghost predicate BooksOk(b: Books) {
    QueueOk(b) && SearchOk(b)
  }

  lemma NoTasksOk()
    ensures BooksOk(NO_TASKS)
  {
  }

  lemma TakingKeeps(b: Books)
    requires BooksOk(b)
    ensures BooksOk(Taking(b))
  {
    if b.tasks != [] && b.taken.NotTaken? {
      var b' := Taking(b);
      forall t ensures t in b'.queued <==> Waits(b', t) || b'.taken == Got(t) {
        assert t in b.queued <==> Waits(b, t) || b.taken == Got(t);
        assert b.tasks == [b.tasks[0]] + b.tasks[1..];
      }
    }
  }

  lemma CheckingKeeps(b: Books)
    requires BooksOk(b)
    ensures BooksOk(Checking(b))
  {
    var b' := Checking(b);
    forall t ensures t in b'.queued <==> Waits(b', t) || b'.taken == Got(t) {
      assert t in b.queued <==> Waits(b, t) || b.taken == Got(t);
    }
  }

  /** Every read and write of either thread keeps queue and set in step, and no task waits twice. */
  lemma MoveKeepsBooks(b: Books, move: BookMove)
    requires BooksOk(b)
    ensures BooksOk(Move(b, move))
  {
    match move
    case TakeTask => TakingKeeps(b);
    case CheckTask => CheckingKeeps(b);
    case _ =>
      var b' := Move(b, move);
      forall t ensures t in b'.queued <==> Waits(b', t) || b'.taken == Got(t) {
        assert t in b.queued <==> Waits(b, t) || b.taken == Got(t);
      }
  }

  lemma CheckBegunKeepsBooks(b: Books, t: TaskId)
    requires BooksOk(b) && b.check.Idle?
    ensures BooksOk(CheckBegun(b, t))
  {
    var b' := CheckBegun(b, t);
    forall u ensures u in b'.queued <==> Waits(b', u) || b'.taken == Got(u) {
      assert u in b.queued <==> Waits(b, u) || b.taken == Got(u);
    }
  }

  // ---------------------------------------------------------------- when a task is queued while it is worked on

  /** Neither the active task nor the one about to become it waits in the queue again. */
  predicate Single(b: Books) {
    && (b.active.Some? ==> !Waits(b, b.active.value))
    && (!b.taken.NotTaken? ==> !Waits(b, b.taken.t))
  }

  /**
   * The handler looks into the set; between its reading of the active task and now the task was out of the set and not
   * yet active; and it has not been finished since.
   */
  predicate Doubles(b: Books, move: BookMove) {
    && move.CheckTask? && b.check.Searching? && b.check.met
    && (b.active == Some(b.check.t) || b.taken == Dropped(b.check.t))
  }

  /** A move queues a task that is being worked on if and only if it is such a look into the set. */
  lemma MoveDoublesIff(b: Books, move: BookMove)
    requires BooksOk(b) && Single(b)
    ensures Single(Move(b, move)) <==> !Doubles(b, move)
  {
    match move
    case TakeTask => MoveKeepsBooks(b, move);
    case _ =>
  }
}
