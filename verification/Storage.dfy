/** The job and task methods of class Storage (app/storage.py) on mutable tables, and WorkflowEngine.start/cancel. */
module JobStorage {
  import opened Common
  import opened Tables

  lemma NoneExpired(s: Store, target: Option<Target>)
    requires forall t :: !Selected(s, target, t)
    ensures RecoverExpired(s, target) == s
  {
    var r := RecoverExpired(s, target);
    assert r.jobs == s.jobs && r.tasks == s.tasks && r.ledger == s.ledger;
  }

  predicate SameJob(before: map<TaskId, Job>, after: map<TaskId, Job>, t: TaskId) {
    (t in after <==> t in before) && (t in before ==> after[t] == before[t])
  }

  class Storage {
    var tasks: map<TaskId, TaskRow>
    var jobs: map<TaskId, Job>
    var requests: map<nat, RequestRow>
    ghost var ledger: map<TaskId, Ledger>

    ghost function View(now: int): Store
      reads this
    {
      Store(now, tasks, jobs, ledger, requests)
    }

    constructor ()
      ensures forall now :: View(now) == Store(now, map[], map[], map[], map[])
    {
      tasks, jobs, requests, ledger := map[], map[], map[], map[];
    }

    method Enqueue(now: int, t: TaskId, target: Target, maxAttempts: int)
      modifies this
      ensures View(now) == EnqueueJob(old(View(now)), t, target, maxAttempts)
      ensures t in jobs && jobs[t].target == target && jobs[t].status == Pending && jobs[t].attempts == 0
      ensures jobs[t].maxAttempts == maxAttempts && jobs[t].availableAt == now && jobs[t].owner == None
      ensures jobs[t].createdAt == if t in old(jobs) then old(jobs)[t].createdAt else now
      ensures tasks == old(tasks) && forall u | u != t :: SameJob(old(jobs), jobs, u)
    {
      var created := if t in jobs then jobs[t].createdAt else now;
      jobs := jobs[t := Job(target, Pending, 0, maxAttempts, now, None, None, created, now)];
      ledger := ledger[t := NEW_LEDGER];
    }

    /** Returns how many leases were taken back. */
    method RecoverExpiredJobs(now: int, target: Option<Target>) returns (count: nat)
      modifies this
      ensures View(now) == RecoverExpired(old(View(now)), target)
      ensures count == |set t | t in old(jobs) && Selected(old(View(now)), target, t)|
    {
      var expired := set t | t in jobs && LeaseExpired(jobs[t], now)
                             && (target.Some? ==> jobs[t].target == target.value);
      count := |expired|;
      ghost var before := View(now);
      assert forall t :: t in expired <==> Selected(before, target, t);
      assert expired == set t | t in jobs && Selected(before, target, t);
      if expired == {} {
        NoneExpired(before, target);
        return;
      }
      jobs := map t | t in jobs ::
        if t in expired then jobs[t].(status := Pending, owner := None, expiresAt := None, updatedAt := now)
        else jobs[t];
      tasks := map t | t in tasks :: if t in expired then tasks[t].(status := Queued) else tasks[t];
      ledger := map t | t in ledger :: if t in expired then Expire(ledger[t]) else ledger[t];
      assert View(now) == RecoverExpired(before, target);
    }

    /** The claim query: an eligible row of least creation time. */
    method OldestEligible(now: int, target: Target) returns (pick: Option<TaskId>)
      ensures IsClaim(View(now), target, pick)
      ensures pick.Some? ==>
                && pick.value in jobs && jobs[pick.value].target == target && jobs[pick.value].status == Pending
                && jobs[pick.value].availableAt <= now
      ensures forall t | t in jobs && jobs[t].target == target && jobs[t].status == Pending
                         && jobs[t].availableAt <= now ::
                pick.Some? && jobs[pick.value].createdAt <= jobs[t].createdAt
    {
      var candidates := set t | t in jobs && jobs[t].target == target && jobs[t].status == Pending
                                && jobs[t].availableAt <= now;
      ghost var s := View(now);
      assert forall t | t in jobs :: t in candidates <==> Eligible(s, target, t);
      pick := None;
      ghost var seen: set<TaskId> := {};
      ghost var all := candidates;
      while candidates != {}
        invariant candidates !! seen && candidates + seen == all
        invariant pick.None? ==> seen == {}
        invariant pick.Some? ==> pick.value in seen && pick.value in jobs
        invariant pick.Some? ==> forall u | u in seen :: jobs[pick.value].createdAt <= jobs[u].createdAt
        decreases candidates
      {
        var t :| t in candidates;
        if pick.None? || jobs[t].createdAt < jobs[pick.value].createdAt {
          pick := Some(t);
        }
        candidates := candidates - {t};
        seen := seen + {t};
      }
    }

    /** Recover, then claim the oldest eligible job of the target. */
    method Lease(now: int, target: Target, owner: Owner, leaseSeconds: int) returns (leased: Option<TaskId>)
      modifies this
      ensures IsClaim(RecoverExpired(old(View(now)), Some(target)), target, leased)
      ensures View(now) == LeaseJob(old(View(now)), target, owner, leaseSeconds, leased)
      ensures leased.Some? ==>
                && leased.value in old(jobs) && leased.value in jobs && jobs[leased.value].owner == Some(owner)
                && jobs[leased.value].status == Leased && jobs[leased.value].expiresAt == Some(now + leaseSeconds)
                && jobs[leased.value].attempts == old(jobs)[leased.value].attempts + 1
    {
      var _ := RecoverExpiredJobs(now, Some(target));
      leased := OldestEligible(now, target);
      if leased.Some? {
        var t := leased.value;
        var j := jobs[t];
        ghost var l := LedgerOf(View(now), t);
        jobs := jobs[t := j.(status := Leased, attempts := j.attempts + 1, owner := Some(owner),
                             expiresAt := Some(now + leaseSeconds), updatedAt := now)];
        ledger := ledger[t := l.(leases := l.leases + 1)];
      }
    }

    method Renew(now: int, t: TaskId, owner: Owner, leaseSeconds: int) returns (renewed: bool)
      modifies this
      ensures View(now) == RenewJob(old(View(now)), t, owner, leaseSeconds)
      ensures renewed <==> t in old(jobs) && old(jobs)[t].owner == Some(owner) && old(jobs)[t].status == Leased
      ensures renewed ==> jobs == old(jobs)[t := old(jobs)[t].(expiresAt := Some(now + leaseSeconds), updatedAt := now)]
      ensures tasks == old(tasks) && (!renewed ==> jobs == old(jobs))
    {
      renewed := t in jobs && jobs[t].owner == Some(owner) && jobs[t].status == Leased;
      if renewed {
        jobs := jobs[t := jobs[t].(expiresAt := Some(now + leaseSeconds), updatedAt := now)];
      }
    }

    method Complete(now: int, t: TaskId, owner: Owner, status: JobStatus)
      modifies this
      ensures View(now) == CompleteJob(old(View(now)), t, owner, status)
      ensures tasks == old(tasks) && forall u | u != t :: SameJob(old(jobs), jobs, u)
      ensures if t in old(jobs) && old(jobs)[t].owner == Some(owner)
              then t in jobs && jobs[t].status == status && jobs[t].owner == None && jobs[t].expiresAt == None
              else jobs == old(jobs)
    {
      if t in jobs && jobs[t].owner == Some(owner) {
        ledger := ledger[t := LedgerOf(View(now), t).(ended := true)];
        jobs := jobs[t := jobs[t].(status := status, owner := None, expiresAt := None, updatedAt := now)];
      }
    }

    /** Returns whether the job was put back for a retry. */
    method Fail(now: int, t: TaskId, owner: Owner, retryBase: int) returns (retry: bool)
      modifies this
      ensures View(now) == FailJob(old(View(now)), t, owner, retryBase)
      ensures retry <==>
                t in old(jobs) && old(jobs)[t].owner == Some(owner) && old(jobs)[t].attempts < old(jobs)[t].maxAttempts
      ensures t in old(jobs) && old(jobs)[t].owner == Some(owner) ==> t in jobs && jobs[t].owner == None
      ensures retry ==>
                && jobs[t].status == Pending
                && jobs[t].availableAt == now + retryBase * Pow2(Max(0, old(jobs)[t].attempts - 1))
                && (t in tasks ==> tasks[t].status == Queued)
      ensures !retry && t in old(jobs) && old(jobs)[t].owner == Some(owner) ==>
                jobs[t].status == JobFailed && tasks == old(tasks)
      ensures forall u | u != t :: SameJob(old(jobs), jobs, u)
    {
      if t !in jobs || jobs[t].owner != Some(owner) {
        return false;
      }
      var j := jobs[t];
      ghost var l := LedgerOf(View(now), t);
      retry := j.attempts < j.maxAttempts;
      if retry {
        var delay := retryBase * Pow2(Max(0, j.attempts - 1));
        jobs := jobs[t := j.(status := Pending, availableAt := now + delay, owner := None,
                             expiresAt := None, updatedAt := now)];
        if t in tasks {
          tasks := tasks[t := tasks[t].(status := Queued)];
        }
        ledger := ledger[t := l.(retries := l.retries + 1, backoff := l.backoff + delay)];
      } else {
        jobs := jobs[t := j.(status := JobFailed, availableAt := now, owner := None,
                             expiresAt := None, updatedAt := now)];
        ledger := ledger[t := l.(ended := true)];
      }
    }

    method CancelPending(now: int, t: TaskId)
      modifies this
      ensures View(now) == CancelJob(old(View(now)), t)
      ensures tasks == old(tasks) && forall u | u != t :: SameJob(old(jobs), jobs, u)
      ensures if t in old(jobs) && old(jobs)[t].status == Pending then t in jobs && jobs[t].status == JobCancelled
              else jobs == old(jobs)
    {
      if t in jobs && jobs[t].status == Pending {
        jobs := jobs[t := jobs[t].(status := JobCancelled, owner := None, expiresAt := None, updatedAt := now)];
      }
    }

    method Cleanup(now: int, cutoff: int)
      modifies this
      ensures View(now) == CleanupJobs(old(View(now)), cutoff)
      ensures tasks == old(tasks) && forall t | t in jobs :: t in old(jobs) && jobs[t] == old(jobs)[t]
      ensures forall t | t in old(jobs) ::
                t !in jobs <==>
                  old(jobs)[t].updatedAt < cutoff && old(jobs)[t].status in {Done, JobCancelled, JobFailed}
    {
      ghost var before := View(now);
      ledger := map t | t in ledger && !(t in jobs && Removable(jobs[t], cutoff)) :: ledger[t];
      jobs := map t | t in jobs && !Removable(jobs[t], cutoff) :: jobs[t];
      assert View(now) == CleanupJobs(before, cutoff);
    }

    method UpdateRow(now: int, t: TaskId, row: TaskRow)
      requires t in tasks
      modifies this
      ensures View(now) == old(View(now)).(tasks := old(tasks)[t := row])
    {
      tasks := tasks[t := row];
    }

    method CreatePermissionRequest(now: int, request: nat, t: TaskId)
      modifies this
      ensures View(now) == AskPermission(old(View(now)), request, t)
    {
      if request !in requests {
        requests := requests[request := RequestRow(t, true)];
      }
    }

    /** False stands for the exception: the request is missing or has been resolved. */
    method ResolvePermissionRequest(now: int, request: nat) returns (resolved: bool)
      modifies this
      ensures resolved <==> IsOpen(old(View(now)), request)
      ensures View(now) == if resolved then ResolveRequest(old(View(now)), request) else old(View(now))
    {
      resolved := request in requests && requests[request].open;
      if resolved {
        requests := requests[request := requests[request].(open := false)];
      }
    }

    method ActiveTask(now: int, r: RunnerId) returns (pick: Option<TaskId>)
      ensures IsActivePick(View(now), r, pick)
      ensures pick.Some? ==>
                && pick.value in tasks && tasks[pick.value].runner == Some(r)
                && tasks[pick.value].status in {Assigned, Accepted, Running, WaitPermission}
      ensures forall t | t in tasks && tasks[t].runner == Some(r)
                         && tasks[t].status in {Assigned, Accepted, Running, WaitPermission} ::
                pick.Some? && tasks[pick.value].createdAt <= tasks[t].createdAt
    {
      var candidates := set t | t in tasks && tasks[t].runner == Some(r) && IsActiveStatus(tasks[t].status);
      ghost var s := View(now);
      assert forall t | t in tasks :: t in candidates <==> IsActiveFor(s, r, t);
      pick := None;
      ghost var seen: set<TaskId> := {};
      ghost var all := candidates;
      while candidates != {}
        invariant candidates !! seen && candidates + seen == all
        invariant pick.None? ==> seen == {}
        invariant pick.Some? ==> pick.value in seen && pick.value in tasks
        invariant pick.Some? ==> forall u | u in seen :: tasks[pick.value].createdAt <= tasks[u].createdAt
        decreases candidates
      {
        var t :| t in candidates;
        if pick.None? || tasks[t].createdAt < tasks[pick.value].createdAt {
          pick := Some(t);
        }
        candidates := candidates - {t};
        seen := seen + {t};
      }
    }

    /**
     * WorkflowEngine.start: false stands for every refusal. `runners` are the registered runners; `routesOk` says that
     * agents are mocked or their routes are valid.
     */
    method Start(now: int, t: TaskId, maxAttempts: int, runners: set<RunnerId>, routesOk: bool) returns (started: bool)
      modifies this
      ensures started <==>
                && t in old(tasks)
                && (old(tasks)[t].status == TaskStatus.Draft || old(tasks)[t].status == TaskStatus.Failed)
                && if old(tasks)[t].runner.Some? then old(tasks)[t].runner.value in runners else routesOk
      ensures started ==>
                && t in jobs && jobs[t].status == Pending && jobs[t].attempts == 0 && jobs[t].owner == None
                && jobs[t].target ==
                   (if old(tasks)[t].runner.Some? then RunnerTarget(old(tasks)[t].runner.value) else ServerTarget)
                && tasks == old(tasks)[t := old(tasks)[t].(status := Queued, progress := 1, cancelRequested := false)]
      ensures View(now) == if started then StartTask(old(View(now)), t, maxAttempts) else old(View(now))
    {
      if t !in tasks || (tasks[t].status != TaskStatus.Draft && tasks[t].status != TaskStatus.Failed) {
        return false;
      }
      var target := ServerTarget;
      if tasks[t].runner.Some? {
        if tasks[t].runner.value !in runners {
          return false;
        }
        target := RunnerTarget(tasks[t].runner.value);
      }
      if tasks[t].runner.None? && !routesOk {
        return false;
      }
      tasks := tasks[t := tasks[t].(status := Queued, progress := 1, cancelRequested := false)];
      Enqueue(now, t, target, maxAttempts);
      return true;
    }

    /** WorkflowEngine.cancel. */
    method Cancel(now: int, t: TaskId)
      requires t in tasks
      modifies this
      ensures View(now) == CancelTask(old(View(now)), t)
      ensures var row := old(tasks)[t];
              if row.status == TaskStatus.Completed || row.status == TaskStatus.Cancelled then
                tasks == old(tasks) && jobs == old(jobs)
              else if row.status == Queued then
                && tasks == old(tasks)[t := row.(status := TaskStatus.Cancelled, cancelRequested := true)]
                && (t in jobs ==> jobs[t].status != Pending)
              else tasks == old(tasks)[t := row.(cancelRequested := true)] && jobs == old(jobs)
    {
      var row := tasks[t];
      if row.status == TaskStatus.Completed || row.status == TaskStatus.Cancelled {
        return;
      }
      if row.status == Queued {
        CancelPending(now, t);
        tasks := tasks[t := row.(status := TaskStatus.Cancelled, cancelRequested := true)];
      } else {
        tasks := tasks[t := row.(cancelRequested := true)];
      }
    }
  }
}
