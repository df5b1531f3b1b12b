/** Some run meets the overtaking bound from every state; counting only unused attempts is right if none is spent. */
module JobFairnessExact {
  import opened Common
  import opened Tables
  import opened JobLedger
  import opened JobFairness

  /** Attempts a live row has not used yet. */
  function Unused(j: Job): nat {
    if j.status == Pending || j.status == Leased then Max(0, Max(1, j.maxAttempts) - j.attempts) else 0
  }

  function UnusedAt(s: Store, t: TaskId): nat {
    if t in s.jobs then Unused(s.jobs[t]) else 0
  }

  ghost function UnusedSum(s: Store, ts: set<TaskId>): nat {
    if ts == {} then 0 else var t :| t in ts; UnusedAt(s, t) + UnusedSum(s, ts - {t})
  }

  lemma {:induction false} UnusedSplit(s: Store, ts: set<TaskId>, t: TaskId)
    requires t in ts
    ensures UnusedSum(s, ts) == UnusedAt(s, t) + UnusedSum(s, ts - {t})
    decreases |ts|
  {
    var u :| u in ts && UnusedSum(s, ts) == UnusedAt(s, u) + UnusedSum(s, ts - {u});
    if u != t {
      UnusedSplit(s, ts - {u}, t);
      UnusedSplit(s, ts - {t}, u);
      assert ts - {u} - {t} == ts - {t} - {u};
    }
  }

  /** Pending with every attempt used: such a row expired on its last attempt, and the claim query still takes it. */
  predicate SpentRow(j: Job) {
    j.status == Pending && j.attempts >= Max(1, j.maxAttempts)
  }

  function Spent(s: Store, ts: set<TaskId>): set<TaskId> {
    set t | t in ts && t in s.jobs && SpentRow(s.jobs[t])
  }

  /** A row has exactly its unused attempts left, and one more if it is spent. */
  lemma LeasesLeftExactly(j: Job, l: Ledger)
    requires Accounted(j, l)
    ensures LeasesLeft(j) == Unused(j) + if SpentRow(j) then 1 else 0
  {
  }

  lemma {:induction false} BudgetIsUnusedAndSpent(s: Store, ts: set<TaskId>)
    requires LedgerOk(s)
    ensures Budget(s, ts) == UnusedSum(s, ts) + |Spent(s, ts)|
    decreases |ts|
  {
    if ts == {} {
      assert Spent(s, ts) == {};
    } else {
      var t :| t in ts;
      BudgetSplit(s, ts, t);
      UnusedSplit(s, ts, t);
      BudgetIsUnusedAndSpent(s, ts - {t});
      if t in s.jobs { LeasesLeftExactly(s.jobs[t], s.ledger[t]); }
      var rest := Spent(s, ts - {t});
      assert Spent(s, ts) == if t in s.jobs && SpentRow(s.jobs[t]) then rest + {t} else rest;
    }
  }

  // ---------------------------------------------------------------- a run that meets the bound

  /** A waiting run with exactly n overtakings and no exhausted expiry. */
  ghost predicate Spends(s: Store, steps: seq<StoreStep>, j: TaskId, target: Target, n: nat) {
    && CanAll(s, steps)
    && Waits(s, steps, j, target)
    && Overtakings(steps, target, j) == n
    && ExhaustedExpiries(s, steps, j) == 0
  }

  lemma SpendsMore(s: Store, step: StoreStep, rest: seq<StoreStep>, j: TaskId, target: Target, n: nat)
    requires Can(s, step) && Eligible(s, target, j) && !step.Enqueue?
    requires ExhaustedIn(s, step, Older(s, j)) == 0 && Spends(Do(s, step), rest, j, target, n)
    ensures Spends(s, [step] + rest, j, target, n + if Overtakes(step, target, j) then 1 else 0)
  {
    assert ([step] + rest)[1..] == rest;
  }

  ghost function LeasedRivals(s: Store, j: TaskId): set<TaskId> {
    set t | t in Older(s, j) && s.jobs[t].status == Leased
  }

  /** The rows of s' are those of s but for t, which keeps its target and its age. */
  ghost predicate OnlyRow(s: Store, s': Store, t: TaskId) {
    && t in s.jobs && t in s'.jobs && s'.jobs.Keys == s.jobs.Keys
    && s'.jobs[t].target == s.jobs[t].target && s'.jobs[t].createdAt == s.jobs[t].createdAt
    && forall u | u in s.jobs && u != t :: s'.jobs[u] == s.jobs[u]
  }

  lemma OnlyRowKeepsRivals(s: Store, s': Store, j: TaskId, t: TaskId)
    requires OnlyRow(s, s', t) && j in s.jobs && t != j
    ensures Older(s', j) == Older(s, j)
    ensures t in Older(s, j) ==>
              Budget(s', Older(s', j)) + LeasesLeft(s.jobs[t]) == Budget(s, Older(s, j)) + LeasesLeft(s'.jobs[t])
  {
    var ts := Older(s, j);
    assert Older(s', j) == ts;
    if t in ts {
      BudgetSplit(s, ts, t);
      BudgetSplit(s', ts, t);
      BudgetMonotone(s, s', ts - {t});
      BudgetMonotone(s', s, ts - {t});
    }
  }

  /** The holder gives a job up at once: nothing is lost but the lease. */
  lemma GivenUp(s: Store, t: TaskId, owner: Owner)
    requires LedgerOk(s) && Owns(s, t, owner)
    ensures var s' := Do(s, Fail(t, owner, 0));
            && OnlyRow(s, s', t) && s'.now == s.now && s'.jobs[t].status != Leased
            && LeasesLeft(s'.jobs[t]) == LeasesLeft(s.jobs[t]) && s'.jobs[t].availableAt <= s.now
  {
    assert Accounted(s.jobs[t], s.ledger[t]);
  }

  lemma NoRivalIsExhausted(s: Store, only: Option<Target>, j: TaskId)
    requires LeasedRivals(s, j) == {}
    ensures Exhausted(s, only, Older(s, j)) == {}
  {
    forall t | t in Older(s, j) ensures !Selected(s, only, t) {
      assert t !in LeasedRivals(s, j);
    }
  }

  lemma {:induction false} PendingRivals(s: Store, ts: set<TaskId>) returns (t: TaskId)
    requires Budget(s, ts) > 0 && forall u | u in ts && u in s.jobs :: s.jobs[u].status != Leased
    ensures t in ts && t in s.jobs && s.jobs[t].status == Pending
    decreases |ts|
  {
    t :| t in ts;
    if t !in s.jobs || s.jobs[t].status != Pending {
      BudgetSplit(s, ts, t);
      t := PendingRivals(s, ts - {t});
    }
  }

  lemma {:induction false} LatestDelay(s: Store, ts: set<TaskId>) returns (to: int)
    ensures to >= s.now && forall t | t in ts && t in s.jobs :: s.jobs[t].availableAt <= to
    decreases |ts|
  {
    if ts == {} {
      to := s.now;
    } else {
      var t :| t in ts;
      var rest := LatestDelay(s, ts - {t});
      to := if t in s.jobs then Max(rest, s.jobs[t].availableAt) else rest;
    }
  }

  lemma {:induction false} OldestPending(s: Store, ts: set<TaskId>, some: TaskId) returns (t: TaskId)
    requires some in ts && some in s.jobs && s.jobs[some].status == Pending
    ensures t in ts && t in s.jobs && s.jobs[t].status == Pending
    ensures forall u | u in ts && u in s.jobs && s.jobs[u].status == Pending ::
              s.jobs[t].createdAt <= s.jobs[u].createdAt
    decreases |ts|
  {
    t := some;
    if younger :| younger in ts && younger in s.jobs && s.jobs[younger].status == Pending
                  && s.jobs[younger].createdAt < s.jobs[some].createdAt {
      t := OldestPending(s, ts - {some}, younger);
    }
  }

  /** When every rival is settled and its delay is over, the oldest pending one is what the claim query returns. */
  lemma OldestRivalIsClaimed(s: Store, j: TaskId, target: Target, t: TaskId)
    requires Eligible(s, target, j) && LeasedRivals(s, j) == {}
    requires forall u | u in Older(s, j) :: s.jobs[u].availableAt <= s.now
    requires t in Older(s, j) && s.jobs[t].status == Pending
    requires forall u | u in Older(s, j) && s.jobs[u].status == Pending :: s.jobs[t].createdAt <= s.jobs[u].createdAt
    ensures IsClaim(RecoverExpired(s, Some(target)), target, Some(t))
  {
    var r := RecoverExpired(s, Some(target));
    assert r.jobs[t] == s.jobs[t];
    forall u | u in r.jobs && Eligible(r, target, u) ensures r.jobs[t].createdAt <= r.jobs[u].createdAt {
      if u in Older(s, j) {
        assert u !in LeasedRivals(s, j);
        assert r.jobs[u] == s.jobs[u];
      }
    }
  }

  /** Recovery leaves settled rivals alone. */
  lemma RecoveredRivals(s: Store, j: TaskId, target: Target)
    requires LeasedRivals(s, j) == {} && Eligible(s, target, j)
    ensures var r := RecoverExpired(s, Some(target));
            && Older(r, j) == Older(s, j) && Budget(r, Older(r, j)) == Budget(s, Older(s, j))
            && Eligible(r, target, j) && LeasedRivals(r, j) == {}
            && forall t | t in Older(s, j) :: r.jobs[t] == s.jobs[t]
  {
    var r := RecoverExpired(s, Some(target));
    forall t | t in Older(s, j) ensures r.jobs[t] == s.jobs[t] {
      assert t !in LeasedRivals(s, j);
    }
    assert Older(r, j) == Older(s, j);
    BudgetMonotone(s, r, Older(s, j));
    BudgetMonotone(r, s, Older(s, j));
  }

  /** A rival is granted: one lease less in the budget. */
  lemma RivalGranted(r: Store, j: TaskId, target: Target, t: TaskId)
    requires Eligible(r, target, j) && LeasedRivals(r, j) == {} && t in Older(r, j) && r.jobs[t].status == Pending
    ensures var s1 := Grant(r, t, WorkerThread(0), 1);
            && Eligible(s1, target, j) && LeasedRivals(s1, j) == {t}
            && s1.jobs[t].owner == Some(WorkerThread(0))
            && Budget(s1, Older(s1, j)) + 1 == Budget(r, Older(r, j))
  {
    var s1 := Grant(r, t, WorkerThread(0), 1);
    OnlyRowKeepsRivals(r, s1, j, t);
    forall u | u in LeasedRivals(s1, j) ensures u == t {
      assert u !in LeasedRivals(r, j);
    }
    assert t in LeasedRivals(s1, j);
  }

  /** A leased rival is given up by its holder: one leased rival less, the same budget. */
  lemma RivalGivenUp(s: Store, j: TaskId, target: Target, t: TaskId, owner: Owner)
    requires LedgerOk(s) && Eligible(s, target, j) && t in LeasedRivals(s, j) && s.jobs[t].owner == Some(owner)
    ensures var s' := Do(s, Fail(t, owner, 0));
            && LedgerOk(s') && Eligible(s', target, j) && LeasedRivals(s', j) == LeasedRivals(s, j) - {t}
            && Budget(s', Older(s', j)) == Budget(s, Older(s, j))
  {
    var s' := Do(s, Fail(t, owner, 0));
    GivenUp(s, t, owner);
    StepKeepsLedger(s, Fail(t, owner, 0));
    OnlyRowKeepsRivals(s, s', j, t);
    assert LeasedRivals(s', j) == LeasedRivals(s, j) - {t};
  }

  /** From a state with no leased rival: wait for all delays, lease the oldest rival, give it up, and so on. */
  lemma {:induction false} SettledRivalsSpendAll(s: Store, j: TaskId, target: Target) returns (steps: seq<StoreStep>)
    requires LedgerOk(s) && Eligible(s, target, j) && LeasedRivals(s, j) == {}
    ensures Spends(s, steps, j, target, Budget(s, Older(s, j)))
    decreases Budget(s, Older(s, j))
  {
    steps := [];
    if Budget(s, Older(s, j)) > 0 {
      forall u | u in Older(s, j) ensures s.jobs[u].status != Leased {
        assert u !in LeasedRivals(s, j);
      }
      var some := PendingRivals(s, Older(s, j));
      var t := OldestPending(s, Older(s, j), some);
      var to := LatestDelay(s, Older(s, j));
      var later := Do(s, Tick(to));
      Waited(s, j, target, to);
      OldestRivalIsClaimed(later, j, target, t);
      NoRivalIsExhausted(later, Some(target), j);
      RecoveredRivals(later, j, target);
      RivalGranted(RecoverExpired(later, Some(target)), j, target, t);
      var s1 := Do(later, Lease(target, WorkerThread(0), 1, Some(t)));
      StepKeepsLedger(later, Lease(target, WorkerThread(0), 1, Some(t)));
      RivalGivenUp(s1, j, target, t, WorkerThread(0));
      var s2 := Do(s1, Fail(t, WorkerThread(0), 0));
      var rest := SettledRivalsSpendAll(s2, j, target);
      SpendsMore(s1, Fail(t, WorkerThread(0), 0), rest, j, target, Budget(s2, Older(s2, j)));
      steps := [Fail(t, WorkerThread(0), 0)] + rest;
      SpendsMore(later, Lease(target, WorkerThread(0), 1, Some(t)), steps, j, target, Budget(s2, Older(s2, j)));
      steps := [Lease(target, WorkerThread(0), 1, Some(t))] + steps;
      SpendsMore(s, Tick(to), steps, j, target, Budget(s, Older(s, j)));
      steps := [Tick(to)] + steps;
    }
  }

  lemma Waited(s: Store, j: TaskId, target: Target, to: int)
    requires LedgerOk(s) && Eligible(s, target, j) && to >= s.now
    ensures var later := Do(s, Tick(to));
            && LedgerOk(later) && Eligible(later, target, j) && Older(later, j) == Older(s, j)
            && LeasedRivals(later, j) == LeasedRivals(s, j)
            && Budget(later, Older(later, j)) == Budget(s, Older(s, j))
  {
    var later := Do(s, Tick(to));
    assert Older(later, j) == Older(s, j);
    assert LeasedRivals(later, j) == LeasedRivals(s, j);
    BudgetMonotone(s, later, Older(s, j));
    BudgetMonotone(later, s, Older(s, j));
  }

  /** The bound is attained: from every state some run lets the older rivals take every lease they have left first. */
  lemma {:induction false} BoundIsAttained(s: Store, j: TaskId, target: Target) returns (steps: seq<StoreStep>)
    requires LedgerOk(s) && Eligible(s, target, j)
    ensures Spends(s, steps, j, target, Budget(s, Older(s, j)))
    decreases |LeasedRivals(s, j)|
  {
    if LeasedRivals(s, j) == {} {
      steps := SettledRivalsSpendAll(s, j, target);
    } else {
      var t :| t in LeasedRivals(s, j);
      assert Accounted(s.jobs[t], s.ledger[t]);
      var step := Fail(t, s.jobs[t].owner.value, 0);
      RivalGivenUp(s, j, target, t, step.owner);
      steps := BoundIsAttained(Do(s, step), j, target);
      SpendsMore(s, step, steps, j, target, Budget(s, Older(s, j)));
      steps := [step] + steps;
    }
  }

  // ---------------------------------------------------------------- why unused attempts are not enough

  /** The simpler bound: only attempts not used yet are counted. */
  ghost predicate PlainBound(s: Store, j: TaskId, target: Target) {
    forall steps: seq<StoreStep> | CanAll(s, steps) && Waits(s, steps, j, target) ::
      Overtakings(steps, target, j) <= UnusedSum(s, Older(s, j)) + ExhaustedExpiries(s, steps, j)
  }

  /** The simpler bound holds of every run from a state if and only if no older rival is spent in that state. */
  lemma PlainBoundIff(s: Store, j: TaskId, target: Target)
    requires LedgerOk(s) && Eligible(s, target, j)
    ensures PlainBound(s, j, target) <==> Spent(s, Older(s, j)) == {}
  {
    BudgetIsUnusedAndSpent(s, Older(s, j));
    if Spent(s, Older(s, j)) == {} {
      forall steps: seq<StoreStep> | CanAll(s, steps) && Waits(s, steps, j, target)
        ensures Overtakings(steps, target, j) <= UnusedSum(s, Older(s, j)) + ExhaustedExpiries(s, steps, j)
      {
        OvertakingIsBounded(s, steps, j, target);
      }
    } else {
      var steps := BoundIsAttained(s, j, target);
      assert Waits(s, steps, j, target);
    }
  }

  /** A job with one attempt expires on it while a younger job comes to wait: from empty tables to a spent rival. */
  function SpentRivalRun(start: int): seq<StoreStep> {
    [Enqueue(1, ServerTarget, 1), Lease(ServerTarget, WorkerThread(0), 5, Some(1)), Tick(start + 5),
     Enqueue(2, ServerTarget, 3), Recover(None)]
  }

  /** The two rows that run leaves. */
  predicate SpentAndWaiting(s: Store) {
    && s.jobs.Keys == {1, 2}
    && s.jobs[1].target == ServerTarget && s.jobs[2].target == ServerTarget
    && SpentRow(s.jobs[1]) && s.jobs[2].status == Pending && s.jobs[2].availableAt <= s.now
    && s.jobs[1].createdAt < s.jobs[2].createdAt
  }

  function OnlyAttempt(at: int): Job {
    Job(ServerTarget, Leased, 1, 1, at, Some(WorkerThread(0)), Some(at + 5), at, at)
  }

  /** Time passes, the second job joins, and the first one's lease is found expired. */
  lemma JoinedAndExpired(s2: Store) returns (s3: Store, s4: Store)
    requires s2.jobs == map[1 := OnlyAttempt(s2.now)]
    ensures s3 == Do(s2, Tick(s2.now + 5)) && s4 == Do(s3, Enqueue(2, ServerTarget, 3))
    ensures SpentAndWaiting(Do(s4, Recover(None)))
  {
    s3 := Do(s2, Tick(s2.now + 5));
    s4 := Do(s3, Enqueue(2, ServerTarget, 3));
  }

  lemma SpentRivalRuns(start: int, tasks: map<TaskId, TaskRow>) returns (s: Store)
    ensures var empty := Store(start, tasks, map[], map[], map[]);
            CanAll(empty, SpentRivalRun(start)) && s == DoAll(empty, SpentRivalRun(start))
    ensures SpentAndWaiting(s)
  {
    var empty := Store(start, tasks, map[], map[], map[]);
    var run := SpentRivalRun(start);
    var s1 := Do(empty, run[0]);
    var s2 := Do(s1, run[1]);
    assert s2.jobs == map[1 := OnlyAttempt(start)] && s2.now == start;
    var s3, s4 := JoinedAndExpired(s2);
    s := Do(s4, run[4]);
    ReachedBy(empty, run, s1, s2, s3, s4, s);
  }

  lemma SpentRivalFacts(s: Store)
    requires SpentAndWaiting(s)
    ensures Eligible(s, ServerTarget, 2) && Older(s, 2) == {1} && Spent(s, {1}) == {1} && UnusedSum(s, {1}) == 0
  {
    assert Older(s, 2) == {1};
    assert Spent(s, {1}) == {1};
    UnusedSplit(s, {1}, 1);
    assert {1} - {1} == {};
  }

  /** That state is reached, and in it the simpler bound is 0 although a lease goes to the rival first. */
  lemma SpentRivalIsReached(start: int, tasks: map<TaskId, TaskRow>) returns (s: Store)
    ensures var empty := Store(start, tasks, map[], map[], map[]);
            CanAll(empty, SpentRivalRun(start)) && s == DoAll(empty, SpentRivalRun(start))
    ensures LedgerOk(s) && Eligible(s, ServerTarget, 2)
    ensures Older(s, 2) == Spent(s, Older(s, 2)) == {1} && UnusedSum(s, Older(s, 2)) == 0
    ensures !PlainBound(s, 2, ServerTarget)
  {
    s := SpentRivalRuns(start, tasks);
    RunKeepsLedger(Store(start, tasks, map[], map[], map[]), SpentRivalRun(start));
    SpentRivalFacts(s);
    PlainBoundIff(s, 2, ServerTarget);
  }

  lemma ReachedBy(empty: Store, run: seq<StoreStep>, s1: Store, s2: Store, s3: Store, s4: Store, s5: Store)
    requires |run| == 5 && Can(empty, run[0]) && s1 == Do(empty, run[0]) && Can(s1, run[1]) && s2 == Do(s1, run[1])
    requires Can(s2, run[2]) && s3 == Do(s2, run[2]) && Can(s3, run[3]) && s4 == Do(s3, run[3])
    requires Can(s4, run[4]) && s5 == Do(s4, run[4])
    ensures CanAll(empty, run) && DoAll(empty, run) == s5
  {
    assert run[4..] == [run[4]] && run[4..][1..] == [];
    assert run[3..][1..] == run[4..] && run[2..][1..] == run[3..] && run[1..][1..] == run[2..];
    assert CanAll(s4, run[4..]) && DoAll(s4, run[4..]) == s5;
    assert CanAll(s3, run[3..]) && DoAll(s3, run[3..]) == s5;
    assert CanAll(s2, run[2..]) && DoAll(s2, run[2..]) == s5;
    assert CanAll(s1, run[1..]) && DoAll(s1, run[1..]) == s5;
  }
}
