/** What every sequence of job-table steps keeps: lease accounting, the backoff bound, and exclusive leases in time. */
module JobLedger {
  import opened Common
  import opened Tables

  /** One atomic step of any process that shares the tables. */
  datatype StoreStep =
    | Tick(to: int)
    | Rows(tasks: map<TaskId, TaskRow>)
    | Enqueue(t: TaskId, target: Target, maxAttempts: int)
    | Recover(only: Option<Target>)
    | Lease(target: Target, owner: Owner, leaseSeconds: int, pick: Option<TaskId>)
    | Renew(t: TaskId, owner: Owner, leaseSeconds: int)
    | Complete(t: TaskId, owner: Owner, status: JobStatus)
    | Fail(t: TaskId, owner: Owner, retryBase: int)
    | CancelPending(t: TaskId)
    | Cleanup(cutoff: int)

  ghost predicate Can(s: Store, step: StoreStep) {
    match step
    case Tick(to) => to >= s.now
    case Lease(target, _, _, pick) => IsClaim(RecoverExpired(s, Some(target)), target, pick)
    case Complete(_, _, status) => status != Pending && status != Leased
    case _ => true
  }

  ghost function Do(s: Store, step: StoreStep): Store
    requires Can(s, step)
  {
    match step
    case Tick(to) => s.(now := to)
    case Rows(tasks) => s.(tasks := tasks)
    case Enqueue(t, target, maxAttempts) => EnqueueJob(s, t, target, maxAttempts)
    case Recover(only) => RecoverExpired(s, only)
    case Lease(target, owner, leaseSeconds, pick) => LeaseJob(s, target, owner, leaseSeconds, pick)
    case Renew(t, owner, leaseSeconds) => RenewJob(s, t, owner, leaseSeconds)
    case Complete(t, owner, status) => CompleteJob(s, t, owner, status)
    case Fail(t, owner, retryBase) => FailJob(s, t, owner, retryBase)
    case CancelPending(t) => CancelJob(s, t)
    case Cleanup(cutoff) => CleanupJobs(s, cutoff)
  }

  ghost predicate CanAll(s: Store, steps: seq<StoreStep>)
    decreases |steps|
  {
    steps == [] || (Can(s, steps[0]) && CanAll(Do(s, steps[0]), steps[1..]))
  }

  ghost function DoAll(s: Store, steps: seq<StoreStep>): Store
    requires CanAll(s, steps)
    decreases |steps|
  {
    if steps == [] then s else DoAll(Do(s, steps[0]), steps[1..])
  }

  // ---------------------------------------------------------------- accounting

  /** An owner and a deadline are set exactly while the job is leased. */
  predicate Shaped(j: Job) {
    (j.owner.Some? <==> j.status == Leased) && (j.expiresAt.Some? <==> j.status == Leased)
  }

  function InHand(j: Job, l: Ledger): nat {
    if j.status == Leased || l.ended then 1 else 0
  }

  /** Attempts counted on the row against what happened since the job was enqueued. */
  predicate Accounted(j: Job, l: Ledger) {
    && Shaped(j)
    && (l.ended ==> j.status != Pending && j.status != Leased)
    && j.attempts == l.leases
    && j.attempts == l.retries + l.expiries + InHand(j, l)
    && l.retries <= Max(1, j.maxAttempts) - 1
  }

  ghost predicate LedgerOk(s: Store) {
    forall t | t in s.jobs :: t in s.ledger && Accounted(s.jobs[t], s.ledger[t])
  }

  lemma RecoverKeepsLedger(s: Store, only: Option<Target>)
    requires LedgerOk(s)
    ensures LedgerOk(RecoverExpired(s, only))
  {
    var s' := RecoverExpired(s, only);
    forall t | t in s'.jobs ensures t in s'.ledger && Accounted(s'.jobs[t], s'.ledger[t]) {
      assert t in s.jobs && Accounted(s.jobs[t], s.ledger[t]);
    }
  }

  lemma GrantKeepsLedger(s: Store, t: TaskId, owner: Owner, leaseSeconds: int)
    requires LedgerOk(s) && t in s.jobs && s.jobs[t].status == Pending
    ensures LedgerOk(Grant(s, t, owner, leaseSeconds))
  {
    assert Accounted(s.jobs[t], s.ledger[t]);
  }

  /** Every step keeps the books balanced. */
  lemma StepKeepsLedger(s: Store, step: StoreStep)
    requires LedgerOk(s) && Can(s, step)
    ensures LedgerOk(Do(s, step))
  {
    match step
    case Recover(only) => RecoverKeepsLedger(s, only);
    case Lease(target, owner, leaseSeconds, pick) =>
      RecoverKeepsLedger(s, Some(target));
      if pick.Some? {
        GrantKeepsLedger(RecoverExpired(s, Some(target)), pick.value, owner, leaseSeconds);
      }
    case Renew(t, owner, _) =>
      if Owns(s, t, owner) { assert Accounted(s.jobs[t], s.ledger[t]); }
    case Complete(t, owner, _) =>
      if Owns(s, t, owner) { assert Accounted(s.jobs[t], s.ledger[t]); }
    case Fail(t, owner, _) =>
      if Owns(s, t, owner) { assert Accounted(s.jobs[t], s.ledger[t]); }
    case CancelPending(t) =>
      if t in s.jobs { assert Accounted(s.jobs[t], s.ledger[t]); }
    case _ =>
  }

  /**
   * Over every run: a job has been leased once per retry, once per expired lease, and once more if it is held or was
   * ended by its owner; so it is leased at most max(1, max_attempts) times plus once per expiry.
   */
  lemma {:induction false} RunKeepsLedger(s: Store, steps: seq<StoreStep>)
    requires LedgerOk(s) && CanAll(s, steps)
    ensures LedgerOk(DoAll(s, steps))
    ensures var e := DoAll(s, steps);
            forall t | t in e.jobs ::
              && t in e.ledger
              && e.ledger[t].leases == e.ledger[t].retries + e.ledger[t].expiries + InHand(e.jobs[t], e.ledger[t])
              && e.ledger[t].leases <= Max(1, e.jobs[t].maxAttempts) + e.ledger[t].expiries
    decreases |steps|
  {
    if steps != [] {
      StepKeepsLedger(s, steps[0]);
      RunKeepsLedger(Do(s, steps[0]), steps[1..]);
    } else {
      forall t | t in s.jobs
        ensures s.ledger[t].leases <= Max(1, s.jobs[t].maxAttempts) + s.ledger[t].expiries
      {
        assert Accounted(s.jobs[t], s.ledger[t]);
      }
    }
  }

  // ---------------------------------------------------------------- backoff

  /** The number of doublings the delays granted so far can have used. */
  function Doublings(j: Job, l: Ledger): nat {
    var finished := j.attempts - (if j.attempts == 0 then 0 else InHand(j, l));
    var retriable := Max(0, j.maxAttempts - 1);
    if finished < retriable then finished else retriable
  }

  /** Total delay granted since the enqueue, with an exact value while no lease has expired. */
  predicate BackoffOk(j: Job, l: Ledger, retryBase: int) {
    && l.backoff <= retryBase * (Pow2(Doublings(j, l)) - 1)
    && (l.expiries == 0 ==> l.backoff == retryBase * (Pow2(l.retries) - 1))
  }

  ghost predicate BackoffsOk(s: Store, retryBase: int) {
    LedgerOk(s) && forall t | t in s.jobs :: BackoffOk(s.jobs[t], s.ledger[t], retryBase)
  }

  lemma {:induction false} Pow2Monotone(a: nat, b: nat)
    requires a <= b
    ensures 1 <= Pow2(a) <= Pow2(b)
  {
    if b > 0 {
      Pow2Monotone(if a < b then a else a - 1, b - 1);
    }
  }

  lemma ScaledMonotone(k: int, a: nat, b: nat)
    requires k >= 0 && a <= b
    ensures k * (Pow2(a) - 1) <= k * (Pow2(b) - 1)
  {
    Pow2Monotone(a, b);
    MulMonotone(k, Pow2(a) - 1, Pow2(b) - 1);
  }

  lemma MulMonotone(k: int, x: int, y: int)
    requires k >= 0 && x <= y
    ensures k * x <= k * y
  {
  }

  lemma ScaledDouble(k: int, a: nat)
    requires a >= 1
    ensures k * (Pow2(a - 1) - 1) + k * Pow2(a - 1) == k * (Pow2(a) - 1)
  {
    var p: int := Pow2(a - 1);
    assert Pow2(a) == 2 * p;
    assert k * (p - 1) + k * p == k * (2 * p - 1);
  }

  /** Every retry uses the same base delay. */
  predicate UsesBase(step: StoreStep, retryBase: int) {
    step.Fail? ==> step.retryBase == retryBase
  }

  ghost predicate AllUseBase(steps: seq<StoreStep>, retryBase: int) {
    forall i | 0 <= i < |steps| :: UsesBase(steps[i], retryBase)
  }

  lemma BackoffWeakens(j: Job, l: Ledger, j': Job, l': Ledger, retryBase: int)
    requires retryBase >= 0 && BackoffOk(j, l, retryBase)
    requires Doublings(j, l) <= Doublings(j', l') && l'.backoff == l.backoff
    requires l'.retries == l.retries && l'.expiries >= l.expiries
    ensures BackoffOk(j', l', retryBase)
  {
    ScaledMonotone(retryBase, Doublings(j, l), Doublings(j', l'));
  }

  lemma RecoverKeepsBackoff(s: Store, only: Option<Target>, retryBase: int)
    requires retryBase >= 0 && BackoffsOk(s, retryBase)
    ensures BackoffsOk(RecoverExpired(s, only), retryBase)
  {
    RecoverKeepsLedger(s, only);
    var s' := RecoverExpired(s, only);
    forall t | t in s'.jobs ensures BackoffOk(s'.jobs[t], s'.ledger[t], retryBase) {
      assert Accounted(s.jobs[t], s.ledger[t]);
      BackoffWeakens(s.jobs[t], s.ledger[t], s'.jobs[t], s'.ledger[t], retryBase);
    }
  }

  /** A step that changes one row, keeping what it has been granted. */
  lemma RowKeepsBackoff(s: Store, s': Store, t: TaskId, retryBase: int)
    requires retryBase >= 0 && BackoffsOk(s, retryBase) && LedgerOk(s')
    requires t in s.jobs && t in s'.jobs
    requires forall u | u in s'.jobs && u != t :: u in s.jobs && s'.jobs[u] == s.jobs[u] && s'.ledger[u] == s.ledger[u]
    requires Doublings(s.jobs[t], s.ledger[t]) <= Doublings(s'.jobs[t], s'.ledger[t])
    requires s'.ledger[t].backoff == s.ledger[t].backoff && s'.ledger[t].retries == s.ledger[t].retries
    requires s'.ledger[t].expiries >= s.ledger[t].expiries
    ensures BackoffsOk(s', retryBase)
  {
    BackoffWeakens(s.jobs[t], s.ledger[t], s'.jobs[t], s'.ledger[t], retryBase);
  }

  /** A retry grants the next delay of the series. */
  lemma RetryKeepsBackoff(j: Job, l: Ledger, j': Job, l': Ledger, retryBase: int)
    requires retryBase >= 0 && Accounted(j, l) && BackoffOk(j, l, retryBase) && j.status == Leased && Retries(j)
    requires j' == j.(status := Pending, availableAt := j'.availableAt, owner := None, expiresAt := None,
                      updatedAt := j'.updatedAt)
    requires l' == l.(retries := l.retries + 1, backoff := l.backoff + Delay(j, retryBase))
    ensures BackoffOk(j', l', retryBase)
  {
    assert Doublings(j, l) == j.attempts - 1 && Doublings(j', l') == j.attempts;
    ScaledDouble(retryBase, j.attempts);
  }

  lemma FailKeepsBackoff(s: Store, t: TaskId, owner: Owner, retryBase: int)
    requires retryBase >= 0 && BackoffsOk(s, retryBase)
    ensures BackoffsOk(FailJob(s, t, owner, retryBase), retryBase)
  {
    StepKeepsLedger(s, Fail(t, owner, retryBase));
    var s' := FailJob(s, t, owner, retryBase);
    if Owns(s, t, owner) {
      assert Accounted(s.jobs[t], s.ledger[t]) && BackoffOk(s.jobs[t], s.ledger[t], retryBase);
      if Retries(s.jobs[t]) {
        RetryKeepsBackoff(s.jobs[t], s.ledger[t], s'.jobs[t], s'.ledger[t], retryBase);
      } else {
        RowKeepsBackoff(s, s', t, retryBase);
      }
    }
  }

  lemma GrantKeepsBackoff(s: Store, t: TaskId, owner: Owner, leaseSeconds: int, retryBase: int)
    requires retryBase >= 0 && BackoffsOk(s, retryBase) && t in s.jobs && s.jobs[t].status == Pending
    ensures BackoffsOk(Grant(s, t, owner, leaseSeconds), retryBase)
  {
    GrantKeepsLedger(s, t, owner, leaseSeconds);
    assert Accounted(s.jobs[t], s.ledger[t]);
    RowKeepsBackoff(s, Grant(s, t, owner, leaseSeconds), t, retryBase);
  }

  lemma EnqueueKeepsBackoff(s: Store, t: TaskId, target: Target, maxAttempts: int, retryBase: int)
    requires BackoffsOk(s, retryBase)
    ensures BackoffsOk(EnqueueJob(s, t, target, maxAttempts), retryBase)
  {
  }

  lemma CleanupKeepsBackoff(s: Store, cutoff: int, retryBase: int)
    requires BackoffsOk(s, retryBase)
    ensures BackoffsOk(CleanupJobs(s, cutoff), retryBase)
  {
  }

  lemma SettleKeepsBackoff(s: Store, t: TaskId, owner: Owner, status: JobStatus, retryBase: int)
    requires retryBase >= 0 && BackoffsOk(s, retryBase) && status != Pending && status != Leased
    ensures BackoffsOk(CompleteJob(s, t, owner, status), retryBase)
  {
    StepKeepsLedger(s, Complete(t, owner, status));
    if Owns(s, t, owner) {
      assert Accounted(s.jobs[t], s.ledger[t]);
      RowKeepsBackoff(s, CompleteJob(s, t, owner, status), t, retryBase);
    }
  }

  lemma RenewOrCancelKeepsBackoff(s: Store, t: TaskId, owner: Owner, leaseSeconds: int, retryBase: int)
    requires retryBase >= 0 && BackoffsOk(s, retryBase)
    ensures BackoffsOk(RenewJob(s, t, owner, leaseSeconds), retryBase)
    ensures BackoffsOk(CancelJob(s, t), retryBase)
  {
    StepKeepsLedger(s, Renew(t, owner, leaseSeconds));
    StepKeepsLedger(s, CancelPending(t));
    if t in s.jobs {
      assert Accounted(s.jobs[t], s.ledger[t]);
      RowKeepsBackoff(s, RenewJob(s, t, owner, leaseSeconds), t, retryBase);
      RowKeepsBackoff(s, CancelJob(s, t), t, retryBase);
    }
  }

  lemma LeaseKeepsBackoff(s: Store, step: StoreStep, retryBase: int)
    requires retryBase >= 0 && BackoffsOk(s, retryBase) && step.Lease? && Can(s, step)
    ensures BackoffsOk(Do(s, step), retryBase)
  {
    RecoverKeepsBackoff(s, Some(step.target), retryBase);
    if step.pick.Some? {
      GrantKeepsBackoff(
        RecoverExpired(s, Some(step.target)), step.pick.value, step.owner, step.leaseSeconds, retryBase);
    }
  }

  lemma StepKeepsBackoff(s: Store, step: StoreStep, retryBase: int)
    requires retryBase >= 0 && BackoffsOk(s, retryBase) && Can(s, step) && UsesBase(step, retryBase)
    ensures BackoffsOk(Do(s, step), retryBase)
  {
    match step
    case Recover(only) => RecoverKeepsBackoff(s, only, retryBase);
    case Lease(_, _, _, _) => LeaseKeepsBackoff(s, step, retryBase);
    case Renew(t, owner, leaseSeconds) => RenewOrCancelKeepsBackoff(s, t, owner, leaseSeconds, retryBase);
    case Complete(t, owner, status) => SettleKeepsBackoff(s, t, owner, status, retryBase);
    case Fail(t, owner, _) => FailKeepsBackoff(s, t, owner, retryBase);
    case CancelPending(t) => RenewOrCancelKeepsBackoff(s, t, WorkerThread(0), 0, retryBase);
    case Enqueue(t, target, maxAttempts) => EnqueueKeepsBackoff(s, t, target, maxAttempts, retryBase);
    case Cleanup(cutoff) => CleanupKeepsBackoff(s, cutoff, retryBase);
    case Tick(to) => SameRowsKeepBackoff(s, s.(now := to), retryBase);
    case Rows(tasks) => SameRowsKeepBackoff(s, s.(tasks := tasks), retryBase);
  }

  lemma SameRowsKeepBackoff(s: Store, s': Store, retryBase: int)
    requires BackoffsOk(s, retryBase) && s'.jobs == s.jobs && s'.ledger == s.ledger
    ensures BackoffsOk(s', retryBase)
  {
  }

  /** The whole geometric series, met exactly when every retry was used and no lease expired. */
  predicate WithinSeries(j: Job, l: Ledger, retryBase: int) {
    j.maxAttempts >= 1 ==>
      && l.backoff <= retryBase * (Pow2(j.maxAttempts - 1) - 1)
      && (l.expiries == 0 && l.retries == j.maxAttempts - 1 ==> l.backoff == retryBase * (Pow2(j.maxAttempts - 1) - 1))
  }

  lemma BackoffWithinSeries(j: Job, l: Ledger, retryBase: int)
    requires retryBase >= 0 && BackoffOk(j, l, retryBase)
    ensures WithinSeries(j, l, retryBase)
  {
    if j.maxAttempts >= 1 {
      ScaledMonotone(retryBase, Doublings(j, l), j.maxAttempts - 1);
    }
  }

  /**
   * Over every run with one base delay: the delays granted to a job since it was enqueued add up to at most
   * base * (2^(max_attempts - 1) - 1), and to exactly that when it has used all its retries without an expiry.
   */
  lemma {:induction false} BackoffStaysWithinSeries(s: Store, steps: seq<StoreStep>, retryBase: int)
    requires retryBase >= 0 && BackoffsOk(s, retryBase) && CanAll(s, steps) && AllUseBase(steps, retryBase)
    ensures BackoffsOk(DoAll(s, steps), retryBase)
    ensures forall t | t in DoAll(s, steps).jobs ::
              WithinSeries(DoAll(s, steps).jobs[t], DoAll(s, steps).ledger[t], retryBase)
    decreases |steps|
  {
    if steps != [] {
      assert UsesBase(steps[0], retryBase);
      StepKeepsBackoff(s, steps[0], retryBase);
      BackoffStaysWithinSeries(Do(s, steps[0]), steps[1..], retryBase);
    } else {
      forall t | t in s.jobs ensures WithinSeries(s.jobs[t], s.ledger[t], retryBase) {
        BackoffWithinSeries(s.jobs[t], s.ledger[t], retryBase);
      }
    }
  }

  // ---------------------------------------------------------------- exclusion in time

  predicate Held(s: Store, t: TaskId, owner: Owner, deadline: int) {
    t in s.jobs && s.jobs[t].status == Leased && s.jobs[t].owner == Some(owner) && s.jobs[t].expiresAt == Some(deadline)
  }

  /** What takes a running lease away other than time: its owner settling or renewing it, or a new enqueue. */
  predicate Touches(step: StoreStep, t: TaskId, owner: Owner) {
    match step
    case Enqueue(u, _, _) => u == t
    case Renew(u, o, _) => u == t && o == owner
    case Complete(u, o, _) => u == t && o == owner
    case Fail(u, o, _) => u == t && o == owner
    case _ => false
  }

  lemma StepHolds(s: Store, step: StoreStep, t: TaskId, owner: Owner, deadline: int)
    requires Can(s, step) && !Touches(step, t, owner) && Held(s, t, owner, deadline) && s.now < deadline
    ensures Held(Do(s, step), t, owner, deadline)
  {
  }

  /**
   * Successive leases never overlap: whatever all other processes do, a job whose owner neither settles nor renews it
   * and which is not enqueued again stays with that owner until its deadline, so a later grant is at or after it.
   */
  lemma {:induction false} LeaseIsExclusive(s: Store, steps: seq<StoreStep>, t: TaskId, owner: Owner, deadline: int)
    requires CanAll(s, steps) && Held(s, t, owner, deadline)
    requires forall i | 0 <= i < |steps| :: !Touches(steps[i], t, owner)
    ensures Held(DoAll(s, steps), t, owner, deadline) || DoAll(s, steps).now >= deadline
    decreases |steps|
  {
    if s.now >= deadline {
      ClockNeverGoesBack(s, steps);
    } else if steps != [] {
      assert !Touches(steps[0], t, owner);
      StepHolds(s, steps[0], t, owner, deadline);
      LeaseIsExclusive(Do(s, steps[0]), steps[1..], t, owner, deadline);
    }
  }

  lemma {:induction false} ClockNeverGoesBack(s: Store, steps: seq<StoreStep>)
    requires CanAll(s, steps)
    ensures DoAll(s, steps).now >= s.now
    decreases |steps|
  {
    if steps != [] {
      ClockNeverGoesBack(Do(s, steps[0]), steps[1..]);
    }
  }

  function RenewInterval(leaseSeconds: int): int {
    Max(1, leaseSeconds / 3)
  }

  /** Three renewals fit into a lease of three seconds or more, and no fourth: two of them may be missed. */
  lemma LeaseIsThreeIntervals(leaseSeconds: int)
    requires leaseSeconds >= 3
    ensures 3 * RenewInterval(leaseSeconds) <= leaseSeconds < 3 * (RenewInterval(leaseSeconds) + 1)
  {
  }

  /**
   * The run of a worker that renews on schedule: since its last renewal at `last` the clock never advances by more
   * than the renewal interval, it does not settle the job, and nobody enqueues the job again.
   */
  predicate OnSchedule(steps: seq<StoreStep>, t: TaskId, owner: Owner, leaseSeconds: int, now: int, last: int)
    decreases |steps|
  {
    steps == [] ||
    match steps[0]
    case Tick(to) =>
      to - last <= RenewInterval(leaseSeconds) && OnSchedule(steps[1..], t, owner, leaseSeconds, to, last)
    case Renew(u, o, secs) =>
      if u == t && o == owner
      then secs == leaseSeconds && OnSchedule(steps[1..], t, owner, leaseSeconds, now, now)
      else OnSchedule(steps[1..], t, owner, leaseSeconds, now, last)
    case _ => !Touches(steps[0], t, owner) && OnSchedule(steps[1..], t, owner, leaseSeconds, now, last)
  }

  /** A worker on schedule is never preempted, provided a lease lasts at least two seconds. */
  lemma {:induction false} PunctualWorkerKeepsLease(
      s: Store, steps: seq<StoreStep>, t: TaskId, owner: Owner, leaseSeconds: int, last: int)
    requires leaseSeconds >= 2
    requires CanAll(s, steps) && OnSchedule(steps, t, owner, leaseSeconds, s.now, last)
    requires Held(s, t, owner, last + leaseSeconds)
    requires last <= s.now <= last + RenewInterval(leaseSeconds)
    ensures Owns(DoAll(s, steps), t, owner) && DoAll(s, steps).jobs[t].status == Leased
    ensures DoAll(s, steps).jobs[t].expiresAt.Some? && DoAll(s, steps).now < DoAll(s, steps).jobs[t].expiresAt.value
    decreases |steps|
  {
    if steps != [] {
      var step := steps[0];
      var s' := Do(s, step);
      if step.Renew? && step.t == t && step.owner == owner {
        PunctualWorkerKeepsLease(s', steps[1..], t, owner, leaseSeconds, s.now);
      } else {
        StepHolds(s, step, t, owner, last + leaseSeconds);
        PunctualWorkerKeepsLease(s', steps[1..], t, owner, leaseSeconds, last);
      }
    }
  }

  /** Whatever else happens, a worker on schedule keeps the lease it has just been given. */
  ghost predicate ScheduleKeepsLease(s: Store, t: TaskId, owner: Owner, leaseSeconds: int) {
    forall steps: seq<StoreStep> | CanAll(s, steps) && OnSchedule(steps, t, owner, leaseSeconds, s.now, s.now) ::
      Owns(DoAll(s, steps), t, owner)
  }

  /** The lease is over when the first renewal is due, and the next recovery takes it. */
  lemma ShortLeaseIsLost(s: Store, t: TaskId, owner: Owner, leaseSeconds: int)
    requires Held(s, t, owner, s.now + leaseSeconds) && leaseSeconds <= 1
    ensures var steps := [Tick(s.now + RenewInterval(leaseSeconds)), Recover(None)];
            && CanAll(s, steps) && OnSchedule(steps, t, owner, leaseSeconds, s.now, s.now)
            && !Owns(DoAll(s, steps), t, owner)
  {
    var steps := [Tick(s.now + RenewInterval(leaseSeconds)), Recover(None)];
    assert steps[1..] == [Recover(None)] && steps[1..][1..] == [];
    var due := Do(s, steps[0]);
    assert Selected(due, None, t);
    assert DoAll(due, steps[1..]) == Do(due, Recover(None));
  }

  /** The renewal schedule keeps every lease if and only if leases last at least two seconds. */
  lemma ScheduleKeepsLeaseIff(s: Store, t: TaskId, owner: Owner, leaseSeconds: int)
    requires Held(s, t, owner, s.now + leaseSeconds)
    ensures ScheduleKeepsLease(s, t, owner, leaseSeconds) <==> leaseSeconds >= 2
  {
    if leaseSeconds >= 2 {
      forall steps: seq<StoreStep> | CanAll(s, steps) && OnSchedule(steps, t, owner, leaseSeconds, s.now, s.now)
        ensures Owns(DoAll(s, steps), t, owner)
      {
        PunctualWorkerKeepsLease(s, steps, t, owner, leaseSeconds, s.now);
      }
    } else {
      ShortLeaseIsLost(s, t, owner, leaseSeconds);
    }
  }
}
