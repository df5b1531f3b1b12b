/** How often a job that stays eligible can be overtaken: the claim query prefers older rows, and those run out. */
module JobFairness {
  import opened Common
  import opened Tables
  import opened JobLedger

  /** Leases the row can still be given before it either ends or is taken back by an expiry. */
  function LeasesLeft(j: Job): nat {
    match j.status
    case Pending => Max(1, j.maxAttempts - j.attempts)
    case Leased => Max(0, j.maxAttempts - j.attempts)
    case _ => 0
  }

  function LeasesLeftAt(s: Store, t: TaskId): nat {
    if t in s.jobs then LeasesLeft(s.jobs[t]) else 0
  }

  ghost function Budget(s: Store, ts: set<TaskId>): nat {
    if ts == {} then 0 else var t :| t in ts; LeasesLeftAt(s, t) + Budget(s, ts - {t})
  }

  lemma {:induction false} BudgetSplit(s: Store, ts: set<TaskId>, t: TaskId)
    requires t in ts
    ensures Budget(s, ts) == LeasesLeftAt(s, t) + Budget(s, ts - {t})
    decreases |ts|
  {
    var u :| u in ts && Budget(s, ts) == LeasesLeftAt(s, u) + Budget(s, ts - {u});
    if u != t {
      BudgetSplit(s, ts - {u}, t);
      BudgetSplit(s, ts - {t}, u);
      assert ts - {u} - {t} == ts - {t} - {u};
    }
  }

  /** The budget does not grow if no row's share grows. */
  lemma {:induction false} BudgetMonotone(s: Store, s': Store, ts: set<TaskId>)
    requires forall t | t in ts :: LeasesLeftAt(s', t) <= LeasesLeftAt(s, t)
    ensures Budget(s', ts) <= Budget(s, ts)
    decreases |ts|
  {
    if ts != {} {
      var t :| t in ts;
      BudgetSplit(s, ts, t);
      BudgetSplit(s', ts, t);
      BudgetMonotone(s, s', ts - {t});
    }
  }

  lemma {:induction false} BudgetSubset(s: Store, part: set<TaskId>, ts: set<TaskId>)
    requires part <= ts
    ensures Budget(s, part) <= Budget(s, ts)
    decreases |ts|
  {
    if ts != {} {
      var t :| t in ts;
      BudgetSplit(s, ts, t);
      if t in part {
        BudgetSplit(s, part, t);
      }
      BudgetSubset(s, part - {t}, ts - {t});
      assert t in part || part - {t} == part;
    }
  }

  /** The rows of ts that a recovery takes back although they have no attempt left. */
  function Exhausted(s: Store, only: Option<Target>, ts: set<TaskId>): set<TaskId> {
    set t | t in ts && Selected(s, only, t) && s.jobs[t].attempts >= s.jobs[t].maxAttempts
  }

  lemma {:induction false} RecoverBudget(s: Store, only: Option<Target>, ts: set<TaskId>)
    ensures Budget(RecoverExpired(s, only), ts) <= Budget(s, ts) + |Exhausted(s, only, ts)|
    decreases |ts|
  {
    if ts != {} {
      var s' := RecoverExpired(s, only);
      var t :| t in ts;
      BudgetSplit(s, ts, t);
      BudgetSplit(s', ts, t);
      RecoverBudget(s, only, ts - {t});
      var rest := Exhausted(s, only, ts - {t});
      if t in Exhausted(s, only, ts) {
        assert Exhausted(s, only, ts) == rest + {t};
      } else {
        assert Exhausted(s, only, ts) == rest;
      }
    }
  }

  // ---------------------------------------------------------------- counting over a run

  /** A lease of the target that goes to another job. */
  ghost predicate Overtakes(step: StoreStep, target: Target, j: TaskId) {
    step.Lease? && step.target == target && step.pick.Some? && step.pick.value != j
  }

  ghost function Overtakings(steps: seq<StoreStep>, target: Target, j: TaskId): nat {
    if steps == [] then 0
    else (if Overtakes(steps[0], target, j) then 1 else 0) + Overtakings(steps[1..], target, j)
  }

  ghost function ExhaustedIn(s: Store, step: StoreStep, ts: set<TaskId>): nat {
    match step
    case Recover(only) => |Exhausted(s, only, ts)|
    case Lease(target, _, _, _) => |Exhausted(s, Some(target), ts)|
    case _ => 0
  }

  /** The other jobs of the same target that the claim query may prefer to j. */
  ghost function Older(s: Store, j: TaskId): set<TaskId> {
    if j !in s.jobs then {}
    else set t | t in s.jobs && t != j && s.jobs[t].target == s.jobs[j].target
                 && s.jobs[t].createdAt <= s.jobs[j].createdAt
  }

  /** Expiries, over the run, of older rivals of j that had no attempt left. */
  ghost function ExhaustedExpiries(s: Store, steps: seq<StoreStep>, j: TaskId): nat
    requires CanAll(s, steps)
    decreases |steps|
  {
    if steps == [] then 0
    else ExhaustedIn(s, steps[0], Older(s, j)) + ExhaustedExpiries(Do(s, steps[0]), steps[1..], j)
  }

  /** An enqueue that makes, or leaves, a row as old as j. */
  ghost predicate RenewsRival(s: Store, step: StoreStep, j: TaskId) {
    step.Enqueue? && j in s.jobs
    && (if step.t in s.jobs then s.jobs[step.t].createdAt else s.now) <= s.jobs[j].createdAt
  }

  /** j stays eligible throughout, and no row as old as j is enqueued. */
  ghost predicate Waits(s: Store, steps: seq<StoreStep>, j: TaskId, target: Target)
    requires CanAll(s, steps)
    decreases |steps|
  {
    && Eligible(s, target, j)
    && (steps == [] || (!RenewsRival(s, steps[0], j) && Waits(Do(s, steps[0]), steps[1..], j, target)))
  }

  lemma OlderOnlyShrinks(s: Store, step: StoreStep, j: TaskId, target: Target)
    requires Can(s, step) && Eligible(s, target, j) && Eligible(Do(s, step), target, j) && !RenewsRival(s, step, j)
    ensures Older(Do(s, step), j) <= Older(s, j)
  {
    var s' := Do(s, step);
    assert s'.jobs[j].createdAt == s.jobs[j].createdAt;
    forall t | t in Older(s', j) ensures t in Older(s, j) {
      assert t in s'.jobs;
      if step.Enqueue? && t == step.t {
      } else {
        assert t in s.jobs && s'.jobs[t].createdAt == s.jobs[t].createdAt && s'.jobs[t].target == s.jobs[t].target;
      }
    }
  }

  /** Every lease of the target while j is eligible goes to j itself or to an older job. */
  lemma ClaimIsOlder(s: Store, step: StoreStep, j: TaskId, target: Target)
    requires Can(s, step) && Eligible(s, target, j) && Overtakes(step, target, j)
    ensures step.pick.value in Older(s, j)
    ensures step.pick.value in RecoverExpired(s, Some(target)).jobs
  {
    var r := RecoverExpired(s, Some(target));
    assert Eligible(r, target, j);
    assert Eligible(r, target, step.pick.value);
  }

  lemma GrantBudget(s: Store, t: TaskId, owner: Owner, leaseSeconds: int, ts: set<TaskId>)
    requires t in s.jobs && s.jobs[t].status == Pending
    ensures Budget(Grant(s, t, owner, leaseSeconds), ts) <= Budget(s, ts)
    ensures t in ts ==> Budget(Grant(s, t, owner, leaseSeconds), ts) + 1 <= Budget(s, ts)
  {
    var s' := Grant(s, t, owner, leaseSeconds);
    assert LeasesLeft(s'.jobs[t]) + 1 == LeasesLeft(s.jobs[t]);
    if t in ts {
      BudgetSplit(s, ts, t);
      BudgetSplit(s', ts, t);
      BudgetMonotone(s, s', ts - {t});
    } else {
      BudgetMonotone(s, s', ts);
    }
  }

  /** One step: an overtaking uses up one lease of the older rivals' budget; only an exhausted expiry adds to it. */
  lemma StepBudget(s: Store, step: StoreStep, j: TaskId, target: Target)
    requires LedgerOk(s) && Can(s, step) && Eligible(s, target, j) && !RenewsRival(s, step, j)
    ensures (if Overtakes(step, target, j) then 1 else 0) + Budget(Do(s, step), Older(s, j))
            <= Budget(s, Older(s, j)) + ExhaustedIn(s, step, Older(s, j))
  {
    var ts := Older(s, j);
    match step
    case Recover(only) => RecoverBudget(s, only, ts);
    case Lease(lt, owner, leaseSeconds, pick) =>
      RecoverBudget(s, Some(lt), ts);
      if pick.Some? {
        GrantBudget(RecoverExpired(s, Some(lt)), pick.value, owner, leaseSeconds, ts);
        if Overtakes(step, target, j) { ClaimIsOlder(s, step, j, target); }
      }
    case Fail(t, owner, retryBase) =>
      if Owns(s, t, owner) { assert Accounted(s.jobs[t], s.ledger[t]); }
      BudgetMonotone(s, Do(s, step), ts);
    case Complete(t, owner, status) =>
      BudgetMonotone(s, Do(s, step), ts);
    case _ =>
      BudgetMonotone(s, Do(s, step), ts);
  }

  /**
   * Bounded overtaking: while a job stays eligible, leases of its target that go to other jobs number at most the
   * leases its older rivals have left, plus one for each expiry of a rival that had no attempt left.
   */
  lemma {:induction false} OvertakingIsBounded(s: Store, steps: seq<StoreStep>, j: TaskId, target: Target)
    requires LedgerOk(s) && CanAll(s, steps) && Waits(s, steps, j, target)
    ensures Overtakings(steps, target, j) <= Budget(s, Older(s, j)) + ExhaustedExpiries(s, steps, j)
    decreases |steps|
  {
    if steps != [] {
      var s' := Do(s, steps[0]);
      StepBudget(s, steps[0], j, target);
      StepKeepsLedger(s, steps[0]);
      OlderOnlyShrinks(s, steps[0], j, target);
      BudgetSubset(s', Older(s', j), Older(s, j));
      OvertakingIsBounded(s', steps[1..], j, target);
    }
  }
}
