/**
 * What the rows of the job table show over every run: when a failed job can be claimed again, how long it has waited in
 * all, how its attempts add up, and what a recovery does. Nothing here looks at the history values of the tables.
 */
module JobLaws {
  import opened Common
  import opened Tables
  import opened JobLedger

  // ---------------------------------------------------------------- one retry

  /** The moment a job that failed at its k-th attempt may be claimed again. */
  function DueAfter(now: int, retryBase: int, attempt: nat): int {
    now + retryBase * (if attempt <= 1 then 1 else Pow2(attempt - 1))
  }

  /** Nobody enqueues the job again. */
  predicate NotEnqueued(steps: seq<StoreStep>, t: TaskId) {
    forall i | 0 <= i < |steps| :: !(steps[i].Enqueue? && steps[i].t == t)
  }

  predicate Claims(step: StoreStep, t: TaskId) {
    step.Lease? && step.pick == Some(t)
  }

  /** Nobody claims the job or cancels it while it is pending. */
  predicate LeftAlone(steps: seq<StoreStep>, t: TaskId) {
    forall i | 0 <= i < |steps| :: !Claims(steps[i], t) && steps[i] != CancelPending(t)
  }

  /** The job waits in the table for `due`. */
  predicate WaitsFor(s: Store, t: TaskId, due: int) {
    t in s.jobs && s.jobs[t].status == Pending && s.jobs[t].owner == None && s.jobs[t].availableAt == due
  }

  /** Until `due`, the job is waiting for it, or gone from the queue for good. */
  predicate NotBefore(s: Store, t: TaskId, due: int) {
    s.now < due ==>
      || t !in s.jobs
      || WaitsFor(s, t, due)
      || (s.jobs[t].owner == None && s.jobs[t].status != Pending && s.jobs[t].status != Leased)
  }

  lemma StepKeepsNotBefore(s: Store, step: StoreStep, t: TaskId, due: int)
    requires NotBefore(s, t, due) && Can(s, step) && !(step.Enqueue? && step.t == t)
    ensures NotBefore(Do(s, step), t, due)
    ensures s.now < due ==> !Claims(step, t)
  {
  }

  /** No step of the run claims the job before `due`. */
  ghost predicate NoneClaimsBefore(s: Store, steps: seq<StoreStep>, t: TaskId, due: int)
    requires CanAll(s, steps)
    decreases |steps|
  {
    steps == [] ||
    ((s.now < due ==> !Claims(steps[0], t)) && NoneClaimsBefore(Do(s, steps[0]), steps[1..], t, due))
  }

  lemma {:induction false} RunKeepsNotBefore(s: Store, steps: seq<StoreStep>, t: TaskId, due: int)
    requires NotBefore(s, t, due) && CanAll(s, steps) && NotEnqueued(steps, t)
    ensures NoneClaimsBefore(s, steps, t, due) && NotBefore(DoAll(s, steps), t, due)
    decreases |steps|
  {
    if steps != [] {
      assert !(steps[0].Enqueue? && steps[0].t == t);
      StepKeepsNotBefore(s, steps[0], t, due);
      RunKeepsNotBefore(Do(s, steps[0]), steps[1..], t, due);
    }
  }

  lemma StepKeepsWaiting(s: Store, step: StoreStep, t: TaskId, due: int)
    requires WaitsFor(s, t, due) && Can(s, step) && !(step.Enqueue? && step.t == t)
    requires !Claims(step, t) && step != CancelPending(t)
    ensures WaitsFor(Do(s, step), t, due) && Do(s, step).jobs[t].target == s.jobs[t].target
  {
  }

  lemma {:induction false} RunKeepsWaiting(s: Store, steps: seq<StoreStep>, t: TaskId, due: int)
    requires WaitsFor(s, t, due) && CanAll(s, steps) && NotEnqueued(steps, t) && LeftAlone(steps, t)
    ensures WaitsFor(DoAll(s, steps), t, due) && DoAll(s, steps).jobs[t].target == s.jobs[t].target
    decreases |steps|
  {
    if steps != [] {
      assert !(steps[0].Enqueue? && steps[0].t == t) && !Claims(steps[0], t) && steps[0] != CancelPending(t);
      StepKeepsWaiting(s, steps[0], t, due);
      RunKeepsWaiting(Do(s, steps[0]), steps[1..], t, due);
    }
  }

  /** The row of a job whose holder reports its k-th attempt as failed, with attempts left. */
  lemma FailedAttempt(s: Store, t: TaskId, owner: Owner, retryBase: int)
    requires t in s.jobs && s.jobs[t].status == Leased && s.jobs[t].owner == Some(owner)
    requires s.jobs[t].attempts < s.jobs[t].maxAttempts
    ensures var s' := Do(s, Fail(t, owner, retryBase));
            && WaitsFor(s', t, DueAfter(s.now, retryBase, s.jobs[t].attempts)) && s'.now == s.now
            && s'.jobs[t].target == s.jobs[t].target && s'.jobs[t].attempts == s.jobs[t].attempts
            && (t in s.tasks ==> t in s'.tasks && s'.tasks[t] == s.tasks[t].(status := Queued))
  {
  }

  /**
   * A job that fails at its k-th attempt, at time n, with attempts left: in every continuation in which it is not
   * enqueued again nobody claims it before n + base * 2^(k-1); from then on the claim query sees it for as long as it
   * has been left alone.
   */
  lemma FailedJobWaits(s: Store, t: TaskId, owner: Owner, retryBase: int, steps: seq<StoreStep>)
    requires t in s.jobs && s.jobs[t].status == Leased && s.jobs[t].owner == Some(owner)
    requires s.jobs[t].attempts < s.jobs[t].maxAttempts
    requires CanAll(Do(s, Fail(t, owner, retryBase)), steps) && NotEnqueued(steps, t)
    ensures var failed, due := Do(s, Fail(t, owner, retryBase)), DueAfter(s.now, retryBase, s.jobs[t].attempts);
            var e := DoAll(failed, steps);
            && NoneClaimsBefore(failed, steps, t, due)
            && (e.now < due ==> forall target :: !Eligible(e, target, t))
            && (e.now >= due && LeftAlone(steps, t) ==> Eligible(e, s.jobs[t].target, t))
  {
    var failed, due := Do(s, Fail(t, owner, retryBase)), DueAfter(s.now, retryBase, s.jobs[t].attempts);
    FailedAttempt(s, t, owner, retryBase);
    RunKeepsNotBefore(failed, steps, t, due);
    if LeftAlone(steps, t) { RunKeepsWaiting(failed, steps, t, due); }
  }

  // ---------------------------------------------------------------- all retries together

  /** What a run does to one job since it was last enqueued: delays granted, retries, and leases that ran out. */
  datatype Tally = Tally(waits: int, retries: nat, expiries: nat)

  const NOTHING: Tally := Tally(0, 0, 0)

  ghost function Count(b: Tally, s: Store, step: StoreStep, t: TaskId): Tally
    requires Can(s, step)
  {
    var s' := Do(s, step);
    if step.Enqueue? && step.t == t then NOTHING
    else if !(t in s.jobs && t in s'.jobs && s.jobs[t].status == Leased) then b
    else if step.Fail? && s'.jobs[t].status == Pending then
      b.(waits := b.waits + s'.jobs[t].availableAt - s.now, retries := b.retries + 1)
    else if (step.Recover? || step.Lease?) && (s'.jobs[t].status == Pending || s'.jobs[t].attempts > s.jobs[t].attempts)
    then b.(expiries := b.expiries + 1)
    else b
  }

  ghost function CountAll(b: Tally, s: Store, steps: seq<StoreStep>, t: TaskId): Tally
    requires CanAll(s, steps)
    decreases |steps|
  {
    if steps == [] then b else CountAll(Count(b, s, steps[0], t), Do(s, steps[0]), steps[1..], t)
  }

  /** The counts agree with the books kept beside the row. */
  predicate Agrees(b: Tally, s: Store, t: TaskId) {
    t in s.jobs ==>
      t in s.ledger && b == Tally(s.ledger[t].backoff, s.ledger[t].retries, s.ledger[t].expiries)
  }

  lemma StepAgrees(b: Tally, s: Store, step: StoreStep, t: TaskId)
    requires LedgerOk(s) && Can(s, step) && Agrees(b, s, t)
    ensures Agrees(Count(b, s, step, t), Do(s, step), t)
  {
    if step.Recover? || step.Lease? {
      SweepAgrees(b, s, step, t);
    } else if t in s.jobs {
      assert Accounted(s.jobs[t], s.ledger[t]);
    }
  }

  lemma SweepAgrees(b: Tally, s: Store, step: StoreStep, t: TaskId)
    requires LedgerOk(s) && Can(s, step) && Agrees(b, s, t) && (step.Recover? || step.Lease?)
    ensures Agrees(Count(b, s, step, t), Do(s, step), t)
  {
    if t in s.jobs { assert Accounted(s.jobs[t], s.ledger[t]); }
  }

  lemma {:induction false} RunAgrees(b: Tally, s: Store, steps: seq<StoreStep>, t: TaskId)
    requires LedgerOk(s) && CanAll(s, steps) && Agrees(b, s, t)
    ensures LedgerOk(DoAll(s, steps)) && Agrees(CountAll(b, s, steps, t), DoAll(s, steps), t)
    decreases |steps|
  {
    if steps != [] {
      StepAgrees(b, s, steps[0], t);
      StepKeepsLedger(s, steps[0]);
      RunAgrees(Count(b, s, steps[0], t), Do(s, steps[0]), steps[1..], t);
    }
  }

  /**
   * Over every run that starts without the job, with one base delay: since it was last enqueued the delays written to
   * its row add up to at most base * (2^(max_attempts - 1) - 1), and to exactly that when every retry was used and no
   * lease ran out.
   */
  lemma TotalBackoff(s: Store, steps: seq<StoreStep>, retryBase: int, t: TaskId)
    requires retryBase >= 0 && BackoffsOk(s, retryBase) && t !in s.jobs
    requires CanAll(s, steps) && AllUseBase(steps, retryBase)
    ensures var e, b := DoAll(s, steps), CountAll(NOTHING, s, steps, t);
            t in e.jobs && e.jobs[t].maxAttempts >= 1 ==>
              && b.waits <= retryBase * (Pow2(e.jobs[t].maxAttempts - 1) - 1)
              && (b.expiries == 0 && b.retries == e.jobs[t].maxAttempts - 1 ==>
                    b.waits == retryBase * (Pow2(e.jobs[t].maxAttempts - 1) - 1))
  {
    RunAgrees(NOTHING, s, steps, t);
    BackoffStaysWithinSeries(s, steps, retryBase);
  }

  /**
   * Over every run that starts without the job: its attempts are its retries and the leases that ran out, and one more
   * exactly while it is leased, at most one more once it has ended; and there are at most max_attempts - 1 retries.
   */
  lemma AttemptsAddUp(s: Store, steps: seq<StoreStep>, t: TaskId)
    requires LedgerOk(s) && t !in s.jobs && CanAll(s, steps)
    ensures var e, b := DoAll(s, steps), CountAll(NOTHING, s, steps, t);
            t in e.jobs ==>
              var j := e.jobs[t];
              && b.retries <= Max(1, j.maxAttempts) - 1
              && (j.status == Pending ==> j.attempts == b.retries + b.expiries)
              && (j.status == Leased ==> j.attempts == b.retries + b.expiries + 1)
              && b.retries + b.expiries <= j.attempts <= b.retries + b.expiries + 1
  {
    RunAgrees(NOTHING, s, steps, t);
    var e := DoAll(s, steps);
    if t in e.jobs { assert Accounted(e.jobs[t], e.ledger[t]); }
  }

  // ---------------------------------------------------------------- recovery

  /** The lease of the job has run out, and the recovery is about its target. */
  predicate RunOut(s: Store, t: TaskId, only: Option<Target>) {
    && t in s.jobs && s.jobs[t].status == Leased
    && s.jobs[t].expiresAt.Some? && s.jobs[t].expiresAt.value <= s.now
    && (only.None? || s.jobs[t].target == only.value)
  }

  /** The job is pending again as it was before the lease, and its task is back in the queue. */
  predicate BackInQueue(s: Store, s': Store, t: TaskId)
    requires t in s.jobs
  {
    && t in s'.jobs
    && s'.jobs[t] == s.jobs[t].(status := Pending, owner := None, expiresAt := None, updatedAt := s.now)
    && (t in s.tasks ==> t in s'.tasks && s'.tasks[t] == s.tasks[t].(status := Queued))
  }

  predicate SameRows(s: Store, s': Store, t: TaskId) {
    && (t in s'.jobs <==> t in s.jobs) && (t in s.jobs ==> s'.jobs[t] == s.jobs[t])
    && (t in s'.tasks <==> t in s.tasks) && (t in s.tasks ==> s'.tasks[t] == s.tasks[t])
  }

  /** A recovery requeues exactly the jobs whose leases have run out, with their tasks. */
  lemma RecoveryRequeues(s: Store, only: Option<Target>, t: TaskId)
    ensures var s' := Do(s, Recover(only));
            if RunOut(s, t, only) then BackInQueue(s, s', t) else SameRows(s, s', t)
  {
  }

  /**
   * A lease recovers its target first. The job it claims was claimable then and is now leased to the claimant, one
   * attempt further; every other job is as the recovery left it.
   */
  lemma LeaseClaims(s: Store, target: Target, owner: Owner, leaseSeconds: int, pick: Option<TaskId>, t: TaskId)
    requires Can(s, Lease(target, owner, leaseSeconds, pick))
    ensures var s' := Do(s, Lease(target, owner, leaseSeconds, pick));
            if pick == Some(t) then
              && t in s.jobs && t in s'.jobs && s.jobs[t].target == target && s.jobs[t].availableAt <= s.now
              && (s.jobs[t].status == Pending || RunOut(s, t, Some(target)))
              && s'.jobs[t] == s.jobs[t].(status := Leased, owner := Some(owner),
                                          expiresAt := Some(s.now + leaseSeconds),
                                          attempts := s.jobs[t].attempts + 1, updatedAt := s.now)
            else if RunOut(s, t, Some(target)) then BackInQueue(s, s', t)
            else SameRows(s, s', t)
  {
  }
}
