/** What each stage of the main loop does to the tasks: marking, skipping, propagating, and one wave. */
module Waves {
  import opened Wrappers
  import opened Ordering
  import opened Scopes
  import opened Leases
  import opened Lifecycle
  import opened Workflow
  import opened Registry
  import opened Supervision
  import Graph

  lemma GatesStayExact(p: Plan, gates: map<string, bool>, before: Tasks, after: Tasks)
    requires GatesExact(p, gates, before) && before.Keys == after.Keys
    requires forall t | t in before :: before[t].status == Completed <==> after[t].status == Completed
    ensures GatesExact(p, gates, after)
  {
  }

  /** A task that has ended never changes again. */
  predicate EndedStays(before: Tasks, after: Tasks) {
    before.Keys == after.Keys && forall t | t in before && IsTerminal(before[t].status) :: after[t] == before[t]
  }

  lemma EndedStaysItself(tasks: Tasks)
    ensures EndedStays(tasks, tasks)
  {
  }

  lemma EndedStaysTwice(a: Tasks, b: Tasks, c: Tasks)
    requires EndedStays(a, b) && EndedStays(b, c)
    ensures EndedStays(a, c)
  {
  }

  lemma EndedStaysOnce(a: Tasks, b: Tasks, id: TaskId)
    requires id in a && !IsTerminal(a[id].status) && b.Keys == a.Keys && forall t | t in a && t != id :: b[t] == a[t]
    ensures EndedStays(a, b)
  {
  }

  // ----- Marking ready -----

  predicate IsMarked(before: WorkflowTask, after: WorkflowTask) {
    (before.status == Pending || before.status == Retry) && after == Move(before, Ready, PLAIN, after.updatedAt)
  }

  /** Marking changes nothing but pending or retried tasks that become ready. */
  predicate OnlyMarked(before: Tasks, after: Tasks) {
    before.Keys == after.Keys && forall t | t in before :: after[t] == before[t] || IsMarked(before[t], after[t])
  }

  function ReadyIds(order: seq<TaskId>, cs: Contracts, tasks: Tasks): seq<TaskId>
    requires forall t | t in order :: t in cs && t in tasks
  {
    if order == [] then []
    else
      var rest := ReadyIds(order[1..], cs, tasks);
      if IsWaiting(tasks[order[0]].status) && DependenciesDone(cs[order[0]], tasks) then [order[0]] + rest else rest
  }

  lemma {:induction false} ReadyIdsListed(order: seq<TaskId>, cs: Contracts, tasks: Tasks, t: TaskId)
    requires forall t | t in order :: t in cs && t in tasks
    ensures t in ReadyIds(order, cs, tasks) <==> t in order && IsWaiting(tasks[t].status) && DependenciesDone(cs[t], tasks)
  {
    hide DependenciesDone;
    if order != [] {
      assert order == [order[0]] + order[1..];
      ReadyIdsListed(order[1..], cs, tasks, t);
    }
  }

  lemma MarkingKeepsReadiness(c: TaskContract, before: Tasks, after: Tasks)
    requires OnlyMarked(before, after)
    ensures DependenciesDone(c, before) <==> DependenciesDone(c, after)
  {
  }

  predicate AllReady(tasks: Tasks, ids: seq<TaskId>, n: nat)
    requires n <= |ids|
  {
    forall j | 0 <= j < n :: ids[j] in tasks && tasks[ids[j]].status == Ready
  }

  lemma NothingMarkedYet(tasks: Tasks, ids: seq<TaskId>)
    ensures OnlyMarked(tasks, tasks) && AllReady(tasks, ids, 0)
  {
  }

  lemma OnlyMarkedKeys(before: Tasks, after: Tasks)
    requires OnlyMarked(before, after)
    ensures before.Keys == after.Keys
  {
  }

  lemma MarkOne(before: Tasks, mid: Tasks, ids: seq<TaskId>, i: nat, at: Time)
    requires i < |ids| && ids[i] in mid && OnlyMarked(before, mid) && AllReady(mid, ids, i)
    requires mid[ids[i]].status == Pending || mid[ids[i]].status == Retry
    ensures OnlyMarked(before, mid[ids[i] := Move(mid[ids[i]], Ready, PLAIN, at)])
    ensures AllReady(mid[ids[i] := Move(mid[ids[i]], Ready, PLAIN, at)], ids, i + 1)
  {
  }

  lemma MarkedStaysWaiting(before: Tasks, after: Tasks, ids: seq<TaskId>, i: nat)
    requires i < |ids| && OnlyMarked(before, after) && AllReady(after, ids, i)
    requires ids[i] in before && ids[i] in after && IsWaiting(before[ids[i]].status)
    requires after[ids[i]].status != Pending && after[ids[i]].status != Retry
    ensures AllReady(after, ids, i + 1)
  {
  }

  lemma MarkedKeepsGatesAndRest(p: Plan, gates: map<string, bool>, before: Tasks, after: Tasks)
    requires GatesExact(p, gates, before) && IsIdle(before) && OnlyMarked(before, after)
    ensures GatesExact(p, gates, after) && IsIdle(after) && EndedStays(before, after)
  {
    forall t | t in after
      ensures before[t].status == Completed <==> after[t].status == Completed
      ensures !IsActive(after[t].status) && after[t].status != Blocked
    {
      assert after[t] == before[t] || IsMarked(before[t], after[t]);
    }
    GatesStayExact(p, gates, before, after);
  }

  lemma EverythingMarked(p: Plan, before: Tasks, after: Tasks, ids: seq<TaskId>)
    requires OnlyMarked(before, after) && before.Keys == p.contracts.Keys
    requires forall t :: t in p.order <==> t in before
    requires ids == ReadyIds(p.order, p.contracts, before)
    requires AllReady(after, ids, |ids|)
    ensures AllMarked(p.contracts, after)
  {
    hide DependenciesDone;
    forall t | t in after && (after[t].status == Pending || after[t].status == Retry)
      ensures !DependenciesDone(p.contracts[t], after)
    {
      assert after[t] == before[t];
      MarkingKeepsReadiness(p.contracts[t], before, after);
      ReadyIdsListed(p.order, p.contracts, before, t);
    }
  }

  // ----- Skipping optional GPU stages -----

  predicate IsSkipped(c: TaskContract, before: WorkflowTask, after: WorkflowTask) {
    && before.status == Ready && c.optional && c.needsGpu
    && after.noArtifactReason.Some?
    && after == Move(before, Cancelled, PLAIN.(reason := after.noArtifactReason), after.updatedAt)
  }

  /** Skipping changes nothing but ready optional GPU tasks that become cancelled. */
  predicate OnlySkipped(cs: Contracts, before: Tasks, after: Tasks) {
    && before.Keys == after.Keys == cs.Keys
    && forall t | t in before :: after[t] == before[t] || IsSkipped(cs[t], before[t], after[t])
  }

  lemma SkipOne(cs: Contracts, before: Tasks, mid: Tasks, id: TaskId, reason: string, at: Time)
    requires OnlySkipped(cs, before, mid) && id in mid && mid[id].status == Ready && cs[id].optional && cs[id].needsGpu
    ensures OnlySkipped(cs, before, mid[id := Move(mid[id], Cancelled, PLAIN.(reason := Some(reason)), at)])
  {
  }

  lemma SkippedKeepsGatesAndRest(p: Plan, gates: map<string, bool>, before: Tasks, after: Tasks)
    requires GatesExact(p, gates, before) && IsIdle(before) && OnlySkipped(p.contracts, before, after)
    ensures GatesExact(p, gates, after) && IsIdle(after) && EndedStays(before, after)
  {
    forall t | t in after
      ensures before[t].status == Completed <==> after[t].status == Completed
      ensures !IsActive(after[t].status) && after[t].status != Blocked
    {
      assert after[t] == before[t] || IsSkipped(p.contracts[t], before[t], after[t]);
    }
    GatesStayExact(p, gates, before, after);
  }

  // ----- Propagating failures -----

  function FailedRequirements(ds: seq<TaskId>, tasks: Tasks): (r: seq<TaskId>)
    ensures forall d :: d in r <==> d in ds && d in tasks && tasks[d].status in {Blocked, Escalated, Cancelled}
  {
    if ds == [] then []
    else
      assert ds == [ds[0]] + ds[1..];
      var rest := FailedRequirements(ds[1..], tasks);
      if ds[0] in tasks && tasks[ds[0]].status in {Blocked, Escalated, Cancelled} then [ds[0]] + rest else rest
  }

  function Listed(names: seq<TaskId>): string {
    if names == [] then "" else if |names| == 1 then names[0] else names[0] + ", " + Listed(names[1..])
  }

  function DependencyError(names: seq<TaskId>): (r: string)
    ensures r != ""
  {
    "required dependency did not complete: " + Listed(names)
  }

  /** Propagation changes nothing but waiting tasks with a failed requirement, which it escalates. */
  predicate OnlyFailed(cs: Contracts, before: Tasks, after: Tasks) {
    && before.Keys == after.Keys == cs.Keys
    && forall t | t in before ::
         after[t] == before[t] || (IsWaiting(before[t].status) && IsEscalation(before[t], after[t]) && HasFailedRequirement(cs[t], after))
  }

  /** Nothing is left to propagate to among the first `n` tasks in scheduling order. */
  predicate PropagatedUpTo(p: Plan, tasks: Tasks, n: nat)
    requires n <= |p.order|
  {
    forall j | 0 <= j < n :: SettledAt(p, tasks, j)
  }

  predicate SettledAt(p: Plan, tasks: Tasks, j: nat)
    requires j < |p.order|
  {
    var t := p.order[j];
    t in tasks && t in p.contracts && (IsWaiting(tasks[t].status) ==> !HasFailedRequirement(p.contracts[t], tasks))
  }

  lemma SomethingToPropagate(cs: Contracts, tasks: Tasks, id: TaskId)
    requires id in tasks && id in cs && IsWaiting(tasks[id].status) && HasFailedRequirement(cs[id], tasks)
    ensures !NothingToPropagate(cs, tasks)
  {
    hide HasFailedRequirement;
  }

  lemma FailedRequirementsListed(c: TaskContract, tasks: Tasks)
    ensures FailedRequirements(c.dependencies, tasks) != [] <==> HasFailedRequirement(c, tasks)
  {
    var failed := FailedRequirements(c.dependencies, tasks);
    if failed != [] {
      assert failed[0] in failed;
    }
  }

  lemma StartPropagating(p: Plan, tasks: Tasks)
    requires tasks.Keys == p.contracts.Keys
    ensures OnlyFailed(p.contracts, tasks, tasks) && PropagatedUpTo(p, tasks, 0)
  {
  }

  lemma EarlierStaysSettled(p: Plan, tasks: Tasks, i: nat, j: nat, t': WorkflowTask)
    requires PlanValid(p) && j < i < |p.order| && SettledAt(p, tasks, j)
    ensures SettledAt(p, tasks[p.order[i] := t'], j)
  {
    hide ContractValid, Graph.WellFormed;
    var deps := AllDependencies(p.contracts);
    var id := p.order[i];
    assert Distinct(p.order);
    assert Graph.FollowsItsDependencies(deps, p.order, j);
    assert id !in p.order[..j];
    var c := p.contracts[p.order[j]];
    forall d | d in c.dependencies ensures d != id {
      assert d in deps[p.order[j]];
    }
  }

  lemma SettledAfterEscalating(p: Plan, mid: Tasks, i: nat, t': WorkflowTask)
    requires PlanValid(p) && i < |p.order| && p.order[i] in mid && PropagatedUpTo(p, mid, i) && t'.status == Escalated
    ensures PropagatedUpTo(p, mid[p.order[i] := t'], i + 1)
  {
    var after := mid[p.order[i] := t'];
    forall j | 0 <= j < i + 1 ensures SettledAt(p, after, j) {
      if j < i {
        assert SettledAt(p, mid, j);
        EarlierStaysSettled(p, mid, i, j, t');
      } else {
        OrderIsInPlan(p, i);
      }
    }
  }

  lemma OrderIsInPlan(p: Plan, i: nat)
    requires PlanValid(p) && i < |p.order|
    ensures p.order[i] in p.contracts
  {
    assert p.order[i] in AllDependencies(p.contracts);
  }

  lemma EscalateOne(p: Plan, before: Tasks, mid: Tasks, i: nat, t': WorkflowTask)
    requires PlanValid(p) && i < |p.order| && p.order[i] in mid && PropagatedUpTo(p, mid, i) && OnlyFailed(p.contracts, before, mid)
    requires IsWaiting(mid[p.order[i]].status) && HasFailedRequirement(p.contracts[p.order[i]], mid)
    requires IsEscalation(mid[p.order[i]], t')
    ensures PropagatedUpTo(p, mid[p.order[i] := t'], i + 1) && OnlyFailed(p.contracts, before, mid[p.order[i] := t'])
  {
    hide PlanValid, SettledAt, IsEscalation, HasFailedRequirement, PropagatedUpTo;
    var id := p.order[i];
    var after := mid[id := t'];
    EscalatedStatus(mid[id], t');
    SettledAfterEscalating(p, mid, i, t');
    if mid[id] != before[id] {
      EscalatedStatus(before[id], mid[id]);
    }
    assert mid[id] == before[id];
    forall t | t in before && HasFailedRequirement(p.contracts[t], mid) ensures HasFailedRequirement(p.contracts[t], after) {
      FailureStays(p.contracts[t], mid, id, t');
    }
  }

  lemma EscalatedStatus(before: WorkflowTask, after: WorkflowTask)
    requires IsEscalation(before, after)
    ensures after.status == Escalated
  {
  }

  lemma FailureStays(c: TaskContract, tasks: Tasks, id: TaskId, t': WorkflowTask)
    requires HasFailedRequirement(c, tasks) && t'.status == Escalated
    ensures HasFailedRequirement(c, tasks[id := t'])
  {
    var d :| d in c.dependencies && d in tasks && tasks[d].status in {Blocked, Escalated, Cancelled};
    var after := tasks[id := t'];
    assert d in after && after[d].status in {Blocked, Escalated, Cancelled};
  }

  lemma SettleOne(p: Plan, tasks: Tasks, i: nat)
    requires i < |p.order| && p.order[i] in tasks && p.order[i] in p.contracts && PropagatedUpTo(p, tasks, i)
    requires !IsWaiting(tasks[p.order[i]].status) || !HasFailedRequirement(p.contracts[p.order[i]], tasks)
    ensures PropagatedUpTo(p, tasks, i + 1)
  {
    hide HasFailedRequirement;
    forall j | 0 <= j < i + 1 ensures SettledAt(p, tasks, j) {
      if j < i {
        assert SettledAt(p, tasks, j);
      }
    }
  }

  lemma PropagatedEverywhere(p: Plan, tasks: Tasks)
    requires PropagatedUpTo(p, tasks, |p.order|) && forall t :: t in p.order <==> t in tasks
    ensures NothingToPropagate(p.contracts, tasks)
  {
    hide HasFailedRequirement;
    forall t | t in tasks && t in p.contracts && IsWaiting(tasks[t].status) ensures !HasFailedRequirement(p.contracts[t], tasks) {
      var j :| 0 <= j < |p.order| && p.order[j] == t;
      assert SettledAt(p, tasks, j);
    }
  }

  lemma FailedKeepsGatesAndRest(p: Plan, gates: map<string, bool>, before: Tasks, after: Tasks)
    requires GatesExact(p, gates, before) && IsIdle(before) && OnlyFailed(p.contracts, before, after)
    ensures GatesExact(p, gates, after) && IsIdle(after) && EndedStays(before, after)
  {
    hide HasFailedRequirement;
    forall t | t in after
      ensures before[t].status == Completed <==> after[t].status == Completed
      ensures !IsActive(after[t].status) && after[t].status != Blocked
    {
      if after[t] != before[t] {
        EscalatedStatus(before[t], after[t]);
      }
    }
    GatesStayExact(p, gates, before, after);
  }

  // ----- One wave -----

  datatype Verdict =
    | Passed(artifacts: seq<string>, reason: Option<string>)
    | Rejected(error: string, category: FailureCategory, retryable: bool)

  /** Passed results name distinct artifacts or a reason for having none; rejected ones say why. */
  predicate VerdictValid(v: Verdict) {
    match v
    case Passed(artifacts, reason) => Distinct(artifacts) && (artifacts != [] <==> reason.None?) && NotEmpty(reason)
    case Rejected(error, _, _) => error != ""
  }

  /** One task of a wave, with the agent and the lease it was given. */
  datatype Work = Work(contract: TaskContract, agentId: string, lease: PathLease, attempt: nat)

  function LeaseOf(l: PathLease): TaskLease {
    TaskLease(l.leaseId, l.agentId, l.grantedAt, l.expiresAt, l.patterns)
  }

  /** Leased and at once running: one more attempt. */
  function StartedTask(t: WorkflowTask, lease: TaskLease, at: Time): WorkflowTask {
    t.(status := Running, attemptCount := t.attemptCount + 1, lease := Some(lease), startedAt := Some(at), completedAt := None,
       updatedAt := at, blocker := None, category := None, noArtifactReason := None)
  }

  lemma StartIsTwoMoves(t: WorkflowTask, lease: TaskLease, at1: Time, at2: Time)
    ensures Move(Move(t, Leased, PLAIN.(lease := Some(lease)), at1), Running, PLAIN, at2) == StartedTask(t, lease, at2)
  {
  }

  lemma StartedKeepsRounds(c: TaskContract, t: WorkflowTask, lease: TaskLease, at: Time)
    requires t.status == Ready
    ensures Outstanding(c, StartedTask(t, lease, at)) == Outstanding(c, t) && StartedTask(t, lease, at).updatedAt == at
  {
  }

  predicate IsStarted(before: WorkflowTask, after: WorkflowTask, w: Work) {
    && before.status == Ready
    && after == StartedTask(before, LeaseOf(w.lease), after.updatedAt)
    && w.attempt == after.attemptCount
  }

  predicate InWave(work: seq<Work>, id: TaskId) {
    exists w | w in work :: w.contract.taskId == id
  }

  /** A wave's tasks are distinct plan tasks with distinct agents, and no more than there are workers. */
  ghost predicate WaveShape(p: Plan, work: seq<Work>) {
    && |work| <= p.maxWorkers
    && (forall j, k | 0 <= j < k < |work| :: work[j].contract.taskId != work[k].contract.taskId && work[j].agentId != work[k].agentId)
    && forall w | w in work :: w.contract.taskId in p.contracts && p.contracts[w.contract.taskId] == w.contract && LeaseFits(w)
  }

  predicate LeaseFits(w: Work) {
    && w.lease.agentId == w.agentId && w.lease.taskId == w.contract.taskId && w.lease.leaseId.taskId == w.contract.taskId
    && w.lease.patterns == Canonical(w.contract.files)
    && w.lease.access == Write && !w.lease.shared && w.lease.grantedAt < w.lease.expiresAt
  }

  /** No two tasks of a wave may touch a common path, as long as the earlier lease outlived the later grant. */
  ghost predicate WaveIsDisjoint(work: seq<Work>) {
    forall j, k | 0 <= j < k < |work| :: AreApart(work[j], work[k])
  }

  ghost predicate AreApart(earlier: Work, later: Work) {
    earlier.lease.expiresAt <= later.lease.grantedAt || Disjoint(earlier.lease.patterns, later.lease.patterns)
  }

  /** The lease table holds the wave's leases and nothing else, save those that have expired. */
  ghost predicate HoldsOnly(table: LeaseTable, work: seq<Work>) {
    forall id | id in table :: table[id].leaseId == id && HeldForWave(work, table[id])
  }

  ghost predicate HoldsAll(table: LeaseTable, work: seq<Work>, now: Time) {
    forall w | w in work :: StillHeld(table, w, now)
  }

  predicate HeldForWave(work: seq<Work>, lease: PathLease) {
    exists w | w in work :: w.lease == lease
  }

  predicate StillHeld(table: LeaseTable, w: Work, now: Time) {
    (w.lease.leaseId in table && table[w.lease.leaseId] == w.lease) || w.lease.expiresAt <= now
  }

  /** Leasing starts the wave's tasks, escalates those over budget, and changes nothing else. */
  predicate OnlyLeased(before: Tasks, after: Tasks, work: seq<Work>, overBudget: set<TaskId>) {
    && before.Keys == after.Keys
    && (forall w | w in work :: w.contract.taskId in before && IsStarted(before[w.contract.taskId], after[w.contract.taskId], w))
    && (forall t | t in overBudget :: t in before && before[t].status == Ready && IsEscalation(before[t], after[t]))
    && (forall t | t in before && !InWave(work, t) && t !in overBudget :: after[t] == before[t])
  }

  /** The busy tasks are exactly the wave's, and they are running. */
  predicate RunningExactly(tasks: Tasks, work: seq<Work>) {
    && (forall t | t in tasks && (IsActive(tasks[t].status) || tasks[t].status == Blocked) :: InWave(work, t))
    && (forall w | w in work :: w.contract.taskId in tasks && tasks[w.contract.taskId].status == Running)
  }

  lemma StartOne(before: Tasks, mid: Tasks, work: seq<Work>, overBudget: set<TaskId>, w: Work, t': WorkflowTask)
    requires OnlyLeased(before, mid, work, overBudget)
    requires w.contract.taskId in mid && !InWave(work, w.contract.taskId) && w.contract.taskId !in overBudget
    requires IsStarted(mid[w.contract.taskId], t', w)
    ensures OnlyLeased(before, mid[w.contract.taskId := t'], work + [w], overBudget)
  {
    hide IsStarted, IsEscalation;
    var id := w.contract.taskId;
    var after := mid[id := t'];
    forall u | u in work ensures after[u.contract.taskId] == mid[u.contract.taskId] {
      assert u.contract.taskId != id;
    }
    forall t | t in before && !InWave(work + [w], t) && t !in overBudget ensures after[t] == before[t] {
      assert w in work + [w];
      assert forall u | u in work :: u in work + [w];
      assert !InWave(work, t);
    }
  }

  lemma OverBudgetOne(before: Tasks, mid: Tasks, work: seq<Work>, overBudget: set<TaskId>, id: TaskId, t': WorkflowTask)
    requires OnlyLeased(before, mid, work, overBudget)
    requires id in mid && !InWave(work, id) && id !in overBudget && mid[id].status == Ready && IsEscalation(mid[id], t')
    ensures OnlyLeased(before, mid[id := t'], work, overBudget + {id})
  {
    hide IsStarted, IsEscalation;
    var after := mid[id := t'];
    forall u | u in work ensures after[u.contract.taskId] == mid[u.contract.taskId] {
      assert u.contract.taskId != id;
    }
  }

  lemma LeasedKeepsGates(p: Plan, gates: map<string, bool>, before: Tasks, after: Tasks, work: seq<Work>, overBudget: set<TaskId>)
    requires GatesExact(p, gates, before) && IsIdle(before) && OnlyLeased(before, after, work, overBudget)
    ensures GatesExact(p, gates, after) && IsRestful(after) && RunningExactly(after, work) && EndedStays(before, after)
  {
    forall t | t in after
      ensures before[t].status == Completed <==> after[t].status == Completed
      ensures IsTerminal(before[t].status) ==> after[t] == before[t]
      ensures after[t].status !in {Leased, Validating, Blocked}
      ensures IsActive(after[t].status) ==> InWave(work, t)
    {
      LeasedTask(before, after, work, overBudget, t);
    }
    GatesStayExact(p, gates, before, after);
  }

  lemma LeasedTask(before: Tasks, after: Tasks, work: seq<Work>, overBudget: set<TaskId>, t: TaskId)
    requires OnlyLeased(before, after, work, overBudget) && t in before
    ensures InWave(work, t) ==> before[t].status == Ready && after[t].status == Running
    ensures !InWave(work, t) && t in overBudget ==> before[t].status == Ready && after[t].status == Escalated
    ensures !InWave(work, t) && t !in overBudget ==> after[t] == before[t]
  {
  }

  lemma GrantIsApart(table: LeaseTable, r: Request, lease: PathLease, earlier: Work, later: Work)
    requires earlier.lease.leaseId in table && table[earlier.lease.leaseId] == earlier.lease
    requires !Blocks(table[earlier.lease.leaseId], r)
    requires later.lease == lease && lease.patterns == Canonical(r.paths) && lease.agentId == r.agentId
    requires lease.access == r.access == Write && earlier.lease.access == Write && !r.shared && !lease.shared
    requires earlier.lease.agentId != r.agentId
    ensures AreApart(earlier, later)
  {
    UnblockedExcludes(earlier.lease, r, lease);
  }

  const DEFAULT_TTL: Seconds := 900

  function RequestFor(c: TaskContract, agentId: string): Request {
    Request(c.taskId, agentId, c.files, Write, DEFAULT_TTL, false)
  }

  ghost predicate NothingBlocks(table: LeaseTable, r: Request) {
    forall id | id in table :: !Blocks(table[id], r)
  }

  /** What a granted request leaves behind, and what a refused one says about the table. */
  lemma AcquireMeans(s: LeaseState, c: TaskContract, agentId: string, at: Time)
    requires ContractValid(c) && agentId != "" && IsSafe(s)
    ensures var (result, after) := AcquireSpec(s, RequestFor(c, agentId), at);
            && !result.Malformed?
            && IsSafe(after) && after.maxWorkers == s.maxWorkers
            && (result.Granted? ==>
                  && result.lease.leaseId !in LiveAt(s.table, at)
                  && NothingBlocks(LiveAt(s.table, at), RequestFor(c, agentId))
                  && after.table == LiveAt(s.table, at)[result.lease.leaseId := result.lease]
                  && result.lease.grantedAt == at
                  && LeaseFits(Work(c, agentId, result.lease, 0)))
            && (!result.Granted? ==> after.table == LiveAt(s.table, at) && IsRefused(c, agentId, LiveAt(s.table, at), s.maxWorkers))
  {
    hide ActiveAgents, Excludes, Blocks, Canonical;
    AcquireKeepsExclusion(s, RequestFor(c, agentId), at);
  }

  /** Why a well-formed request is refused: the agent would be one too many, or a live lease stands in the way. */
  ghost predicate IsRefused(c: TaskContract, agentId: string, live: LeaseTable, maxWorkers: nat) {
    || (agentId !in ActiveAgents(live) && |ActiveAgents(live)| >= maxWorkers)
    || !NothingBlocks(live, RequestFor(c, agentId))
  }

  ghost predicate IsTableOf(table: LeaseTable, work: seq<Work>, now: Time) {
    HoldsOnly(table, work) && HoldsAll(table, work, now)
  }

  lemma LiveTableStays(table: LeaseTable, work: seq<Work>, now: Time, at: Time, later: Time)
    requires IsTableOf(table, work, now) && now <= at <= later
    ensures IsTableOf(LiveAt(table, at), work, later)
  {
    var live := LiveAt(table, at);
    forall w | w in work ensures StillHeld(live, w, later) {
      assert StillHeld(table, w, now);
    }
  }

  lemma AddToTable(table: LeaseTable, work: seq<Work>, now: Time, w: Work, at: Time, later: Time)
    requires IsTableOf(table, work, now) && now <= at <= later
    requires w.lease.leaseId !in LiveAt(table, at)
    ensures IsTableOf(LiveAt(table, at)[w.lease.leaseId := w.lease], work + [w], later)
  {
    hide LiveAt;
    LiveTableStays(table, work, now, at, later);
    var live := LiveAt(table, at);
    var after := live[w.lease.leaseId := w.lease];
    forall id | id in after ensures after[id].leaseId == id && HeldForWave(work + [w], after[id]) {
      if id == w.lease.leaseId {
        assert w in work + [w];
      } else {
        assert HeldForWave(work, live[id]);
        var u :| u in work && u.lease == live[id];
        assert u in work + [w];
      }
    }
    forall u | u in work + [w] ensures StillHeld(after, u, later) {
      if u in work {
        assert StillHeld(live, u, later);
      }
    }
  }

  lemma AddToWave(p: Plan, work: seq<Work>, w: Work)
    requires WaveShape(p, work) && |work| < p.maxWorkers && !InWave(work, w.contract.taskId)
    requires forall u | u in work :: u.agentId != w.agentId
    requires w.contract.taskId in p.contracts && p.contracts[w.contract.taskId] == w.contract && LeaseFits(w)
    ensures WaveShape(p, work + [w])
  {
    hide LeaseFits;
  }

  lemma AddStaysApart(table: LeaseTable, work: seq<Work>, now: Time, w: Work, at: Time)
    requires WaveIsDisjoint(work) && IsTableOf(table, work, now) && now <= at == w.lease.grantedAt
    requires NothingBlocks(LiveAt(table, at), RequestFor(w.contract, w.agentId))
    requires LeaseFits(w) && forall u | u in work :: u.agentId != w.agentId && LeaseFits(u)
    ensures WaveIsDisjoint(work + [w])
  {
    hide Blocks, Disjoint;
    forall j, k | 0 <= j < k < |work| + 1 ensures AreApart((work + [w])[j], (work + [w])[k]) {
      if k == |work| {
        var u := work[j];
        assert u in work;
        if at < u.lease.expiresAt {
          assert u.lease.leaseId in table && table[u.lease.leaseId] == u.lease;
          GrantIsApart(LiveAt(table, at), RequestFor(w.contract, w.agentId), w.lease, u, w);
        }
      } else {
        assert AreApart(work[j], work[k]);
      }
    }
  }

  lemma StartWave(p: Plan, tasks: Tasks, ids: seq<TaskId>, now: Time)
    requires PlanValid(p)
    ensures OnlyLeased(tasks, tasks, [], {}) && WaveShape(p, []) && WaveIsDisjoint([]) && IsTableOf(map[], [], now)
    ensures TriedOnly(ids, 0, EMPTY_WAVE)
  {
  }

  /** The agent of each task is enabled, has its role and type, and may touch all its files. */
  predicate GivenToCandidate(agents: seq<AgentDefinition>, w: Work) {
    exists a | a in agents ::
      a.agentId == w.agentId && IsCandidate(a, w.contract.owner, w.contract.taskType, {}, w.contract.files)
  }

  lemma CandidateIsGiven(agents: seq<AgentDefinition>, a: AgentDefinition, w: Work, active: set<string>)
    requires a in agents && IsCandidate(a, w.contract.owner, w.contract.taskType, active, w.contract.files) && w.agentId == a.agentId
    ensures GivenToCandidate(agents, w) && w.agentId !in active
  {
    hide CheckPaths;
  }

  datatype LeaseAttempt =
    | Scheduled(work: Work)
    | OverBudget
    | Refused(at: Time)
    | NoAgent
    | NotAuthorised

  predicate HasCandidate(agents: seq<AgentDefinition>, c: TaskContract, active: set<string>) {
    exists a | a in agents :: IsCandidate(a, c.owner, c.taskType, active, c.files)
  }

  /** An agent that fits is asked about a directory pattern, which is an error. */
  predicate HasBadPath(agents: seq<AgentDefinition>, c: TaskContract, active: set<string>) {
    exists a | a in agents :: Fits(a, c.owner, c.taskType, active) && CheckPaths(a, c.files) == NotConcrete
  }

  /** A candidate was found but could not be given the paths. */
  ghost predicate CandidateRefused(agents: seq<AgentDefinition>, c: TaskContract, active: set<string>, live: LeaseTable, maxWorkers: nat) {
    exists a | a in agents :: IsCandidate(a, c.owner, c.taskType, active, c.files) && IsRefused(c, a.agentId, live, maxWorkers)
  }

  /** Busy agents only take candidates away. */
  lemma FewerCandidates(agents: seq<AgentDefinition>, c: TaskContract, few: set<string>, more: set<string>)
    requires few <= more
    ensures HasCandidate(agents, c, more) ==> HasCandidate(agents, c, few)
    ensures HasBadPath(agents, c, more) ==> HasBadPath(agents, c, few)
  {
    hide CheckPaths;
    if a :| a in agents && IsCandidate(a, c.owner, c.taskType, more, c.files) {
      assert IsCandidate(a, c.owner, c.taskType, few, c.files);
    }
    if a :| a in agents && Fits(a, c.owner, c.taskType, more) && CheckPaths(a, c.files) == NotConcrete {
      assert Fits(a, c.owner, c.taskType, few) && CheckPaths(a, c.files) == NotConcrete;
    }
  }

  /** What leasing one task does to the tasks and to the lease table, and why it does no more. */
  ghost predicate LeasedOne(agents: seq<AgentDefinition>, c: TaskContract, active: set<string>, maxWorkers: nat, r: LeaseAttempt,
                            before: Tasks, after: Tasks, table: LeaseTable, table': LeaseTable, from: Time, to: Time)
  {
    match r
    case Scheduled(w) =>
      && w.contract == c && w.agentId !in active && GivenToCandidate(agents, w)
      && StartedOne(c.taskId, w, before, after) && GrantedOne(w, table, table', from, to)
    case OverBudget => EscalatedOne(c.taskId, before, after) && table' == table && HasCandidate(agents, c, active)
    case Refused(at) =>
      && after == before && from <= at <= to && table' == LiveAt(table, at)
      && CandidateRefused(agents, c, active, LiveAt(table, at), maxWorkers)
    case NoAgent => after == before && table' == table && !HasCandidate(agents, c, active)
    case NotAuthorised => after == before && table' == table && HasBadPath(agents, c, active)
  }

  predicate StartedOne(id: TaskId, w: Work, before: Tasks, after: Tasks) {
    id in before && id in after && after == before[id := after[id]] && IsStarted(before[id], after[id], w)
  }

  predicate EscalatedOne(id: TaskId, before: Tasks, after: Tasks) {
    id in before && id in after && after == before[id := after[id]] && before[id].status == Ready && IsEscalation(before[id], after[id])
  }

  ghost predicate GrantedOne(w: Work, table: LeaseTable, table': LeaseTable, from: Time, to: Time) {
    && LeaseFits(w) && from <= w.lease.grantedAt <= to
    && NothingBlocks(LiveAt(table, w.lease.grantedAt), RequestFor(w.contract, w.agentId))
    && w.lease.leaseId !in LiveAt(table, w.lease.grantedAt)
    && table' == LiveAt(table, w.lease.grantedAt)[w.lease.leaseId := w.lease]
  }

  /** Tasks of a wave whose leases overlap in time have different agents and declare no common path. */
  lemma WaveSharesNoPath(p: Plan, agents: seq<AgentDefinition>, f: WaveSoFar, j: nat, k: nat, path: Path)
    requires WaveOk(p, agents, f) && j < k < |f.work|
    requires f.work[k].lease.grantedAt < f.work[j].lease.expiresAt
    requires forall w | w in f.work :: AllNormal(w.contract.files)
    ensures f.work[j].agentId != f.work[k].agentId
    ensures !(CoveredBy(f.work[j].contract.files, path) && CoveredBy(f.work[k].contract.files, path))
  {
    hide SafeToCanonicalize, CoveredBy, AllNormal, Canonical, GivenToCandidate;
    var a, b := f.work[j], f.work[k];
    assert a in f.work && b in f.work;
    assert AreApart(a, b) && LeaseFits(a) && LeaseFits(b);
    GivenIsConcrete(agents, a);
    GivenIsConcrete(agents, b);
    CanonicalKeepsCoverageIff(a.contract.files);
    CanonicalKeepsCoverageIff(b.contract.files);
  }

  /** A task given to a candidate names files only, and files cannot lose coverage. */
  lemma GivenIsConcrete(agents: seq<AgentDefinition>, w: Work)
    requires GivenToCandidate(agents, w)
    ensures SafeToCanonicalize(w.contract.files)
  {
    hide PathIsAllowed, Join;
    var a :| a in agents && a.agentId == w.agentId && IsCandidate(a, w.contract.owner, w.contract.taskType, {}, w.contract.files);
    AllowedIsConcrete(a, w.contract.files);
  }

  lemma {:induction false} AllowedIsConcrete(a: AgentDefinition, files: seq<Scope>)
    requires CheckPaths(a, files) == AllAllowed
    ensures forall f | f in files :: !f.subtree
  {
    hide PathIsAllowed, Join;
    if files != [] {
      assert files == [files[0]] + files[1..];
      AllowedIsConcrete(a, files[1..]);
    }
  }

  /** Every task tried so far is in the wave, without an agent, over budget, or refused its paths. */
  predicate TriedOnly(ids: seq<TaskId>, n: nat, f: WaveSoFar)
    requires n <= |ids|
  {
    && (forall w | w in f.work :: w.contract.taskId in ids[..n])
    && (forall t | t in f.noAgent :: t in ids[..n] && t !in f.overBudget)
    && (forall t | t in f.overBudget :: t in ids[..n])
    && (forall t | t in f.refused :: t in ids[..n])
    && (forall t | t in ids[..n] :: InWave(f.work, t) || t in f.noAgent || t in f.overBudget || t in f.refused)
  }

  /** Some path the task declares is leased to the wave. */
  predicate ClashesWith(work: seq<Work>, c: TaskContract) {
    exists w | w in work :: SomeOverlap(Canonical(c.files), w.lease.patterns)
  }

  /** Why each task that was tried is not in the wave: no agent beyond the busy ones may take it, its budget was
      declined although an agent could, or its paths clash with the wave's. */
  predicate Explained(p: Plan, agents: seq<AgentDefinition>, f: WaveSoFar) {
    && (forall t | t in f.noAgent :: t in p.contracts && !HasCandidate(agents, p.contracts[t], f.active))
    && (forall t | t in f.overBudget :: t in p.contracts && HasCandidate(agents, p.contracts[t], {}))
    && (forall t | t in f.refused :: t in p.contracts && ClashesWith(f.work, p.contracts[t]))
  }

  function WithStatusReady(order: seq<TaskId>, tasks: Tasks): seq<TaskId>
    requires forall t | t in order :: t in tasks
  {
    if order == [] then []
    else
      var rest := WithStatusReady(order[1..], tasks);
      if tasks[order[0]].status == Ready then [order[0]] + rest else rest
  }

  lemma {:induction false} ReadyListed(order: seq<TaskId>, tasks: Tasks)
    requires forall t | t in order :: t in tasks
    ensures forall t :: t in WithStatusReady(order, tasks) <==> t in order && tasks[t].status == Ready
    ensures Distinct(order) ==> Distinct(WithStatusReady(order, tasks))
  {
    if order != [] {
      assert order == [order[0]] + order[1..];
      ReadyListed(order[1..], tasks);
    }
  }

  ghost predicate WaveIds(p: Plan, ids: seq<TaskId>, tasks: Tasks) {
    && Distinct(ids) && tasks.Keys == p.contracts.Keys
    && forall t :: t in ids <==> t in tasks && tasks[t].status == Ready
  }

  lemma WaveIdsListed(p: Plan, s: WorkflowState, rec: Recoveries, now: Time)
    requires SoundState(p, s, rec, now)
    ensures forall t | t in p.order :: t in s.tasks
    ensures WaveIds(p, WithStatusReady(p.order, s.tasks), s.tasks)
  {
    hide SoundState, PlanValid, WithStatusReady;
    SoundKeys(p, s, rec, now);
    ReadyListed(p.order, s.tasks);
  }

  /** The wave formed from the first `n` ready tasks. */
  datatype WaveSoFar =
    WaveSoFar(work: seq<Work>, active: set<string>, noAgent: set<TaskId>, overBudget: set<TaskId>, refused: set<TaskId>)

  const EMPTY_WAVE: WaveSoFar := WaveSoFar([], {}, {}, {}, {})

  ghost predicate WaveOk(p: Plan, agents: seq<AgentDefinition>, f: WaveSoFar) {
    && WaveShape(p, f.work) && WaveIsDisjoint(f.work)
    && f.active == (set w | w in f.work :: w.agentId)
    && forall w | w in f.work :: GivenToCandidate(agents, w)
  }

  ghost predicate Forming(p: Plan, agents: seq<AgentDefinition>, ids: seq<TaskId>, n: nat, before: Tasks, after: Tasks,
                          table: LeaseTable, now: Time, f: WaveSoFar)
  {
    && n <= |ids| && TriedOnly(ids, n, f) && Explained(p, agents, f)
    && OnlyLeased(before, after, f.work, f.overBudget)
    && WaveOk(p, agents, f)
    && IsTableOf(table, f.work, now)
  }

  function WithAttempt(f: WaveSoFar, id: TaskId, r: LeaseAttempt): WaveSoFar {
    match r
    case Scheduled(w) => f.(work := f.work + [w], active := f.active + {w.agentId})
    case OverBudget => f.(overBudget := f.overBudget + {id})
    case NoAgent => f.(noAgent := f.noAgent + {id})
    case Refused(_) => f.(refused := f.refused + {id})
    case NotAuthorised => f
  }

  lemma NextIsReady(p: Plan, agents: seq<AgentDefinition>, ids: seq<TaskId>, n: nat, before: Tasks, mid: Tasks,
                    table: LeaseTable, now: Time, f: WaveSoFar)
    requires WaveIds(p, ids, before) && Forming(p, agents, ids, n, before, mid, table, now, f) && n < |ids|
    ensures ids[n] in before && ids[n] in mid && ids[n] in p.contracts && mid[ids[n]] == before[ids[n]] && mid[ids[n]].status == Ready
    ensures !InWave(f.work, ids[n]) && ids[n] !in f.overBudget && ids[n] !in f.noAgent
  {
    hide WaveOk, IsTableOf, IsStarted, IsEscalation, Explained;
    assert ids[n] in ids && ids[n] !in ids[..n];
  }

  lemma TryLonger(ids: seq<TaskId>, n: nat, f: WaveSoFar, r: LeaseAttempt)
    requires n < |ids| && ids[n] !in ids[..n] && TriedOnly(ids, n, f)
    requires r.Scheduled? ==> r.work.contract.taskId == ids[n]
    requires !r.NotAuthorised?
    ensures TriedOnly(ids, n + 1, WithAttempt(f, ids[n], r))
  {
    hide InWave;
    assert ids[..n + 1] == ids[..n] + [ids[n]];
    var g := WithAttempt(f, ids[n], r);
    if r.Scheduled? {
      LongerWave(f.work, r.work);
    }
  }

  lemma LongerWave(work: seq<Work>, w: Work)
    ensures InWave(work + [w], w.contract.taskId) && forall t | InWave(work, t) :: InWave(work + [w], t)
  {
    assert w in work + [w];
    forall t | InWave(work, t) ensures InWave(work + [w], t) {
      var u :| u in work && u.contract.taskId == t;
      assert u in work + [w];
    }
  }

  lemma StillExplained(p: Plan, agents: seq<AgentDefinition>, f: WaveSoFar, id: TaskId, w: Work)
    requires Explained(p, agents, f)
    ensures Explained(p, agents, WithAttempt(f, id, Scheduled(w)))
  {
    hide HasCandidate, SomeOverlap, HasBadPath;
    forall t | t in f.noAgent ensures !HasCandidate(agents, p.contracts[t], f.active + {w.agentId}) {
      FewerCandidates(agents, p.contracts[t], f.active, f.active + {w.agentId});
    }
    forall t | t in f.refused ensures ClashesWith(f.work + [w], p.contracts[t]) {
      var u :| u in f.work && SomeOverlap(Canonical(p.contracts[t].files), u.lease.patterns);
      assert u in f.work + [w];
    }
  }

  /** While there is room for another worker, only a wave lease on a common path can refuse a candidate. */
  lemma RefusedClashes(p: Plan, agents: seq<AgentDefinition>, f: WaveSoFar, c: TaskContract, table: LeaseTable, at: Time)
    requires WaveOk(p, agents, f) && |f.work| < p.maxWorkers && HoldsOnly(table, f.work)
    requires CandidateRefused(agents, c, f.active, LiveAt(table, at), p.maxWorkers)
    ensures ClashesWith(f.work, c)
  {
    hide Fits, CheckPaths, GivenToCandidate, WaveIsDisjoint, SomeOverlap, Canonical;
    var live := LiveAt(table, at);
    var a :| a in agents && IsCandidate(a, c.owner, c.taskType, f.active, c.files) && IsRefused(c, a.agentId, live, p.maxWorkers);
    WaveAgents(p, agents, f, live);
    if !NothingBlocks(live, RequestFor(c, a.agentId)) {
      var id :| id in live && Blocks(live[id], RequestFor(c, a.agentId));
      assert HeldForWave(f.work, live[id]);
      var w :| w in f.work && w.lease == live[id];
    }
  }

  lemma WaveAgents(p: Plan, agents: seq<AgentDefinition>, f: WaveSoFar, live: LeaseTable)
    requires WaveOk(p, agents, f) && HoldsOnly(live, f.work)
    ensures |ActiveAgents(live)| <= |f.work|
  {
    hide GivenToCandidate, WaveIsDisjoint;
    forall id | id in live ensures live[id].agentId in f.active {
      var w :| w in f.work && w.lease == live[id];
      assert LeaseFits(w);
    }
    assert ActiveAgents(live) <= f.active;
    SubsetIsNoLarger(ActiveAgents(live), f.active);
    AgentsCounted(f.work);
  }

  lemma {:induction false} AgentsCounted(work: seq<Work>)
    ensures |set w | w in work :: w.agentId| <= |work|
  {
    if work != [] {
      var rest := work[1..];
      AgentsCounted(rest);
      assert work == [work[0]] + rest;
      assert (set w | w in work :: w.agentId) == (set w | w in rest :: w.agentId) + {work[0].agentId};
    }
  }

  lemma TryScheduled(p: Plan, agents: seq<AgentDefinition>, ids: seq<TaskId>, n: nat, before: Tasks, mid: Tasks, after: Tasks,
                     table: LeaseTable, table': LeaseTable, from: Time, to: Time, f: WaveSoFar, w: Work)
    requires WaveIds(p, ids, before) && Forming(p, agents, ids, n, before, mid, table, from, f) && n < |ids|
    requires |f.work| < p.maxWorkers && ids[n] in p.contracts && w.contract == p.contracts[ids[n]] && w.contract.taskId == ids[n]
    requires w.agentId !in f.active && GivenToCandidate(agents, w)
    requires StartedOne(ids[n], w, mid, after) && GrantedOne(w, table, table', from, to)
    ensures Forming(p, agents, ids, n + 1, before, after, table', to, WithAttempt(f, ids[n], Scheduled(w)))
  {
    hide GivenToCandidate, IsStarted, LeaseFits, NothingBlocks, WaveIsDisjoint, IsTableOf, TriedOnly, OnlyLeased, LiveAt, RequestFor, Explained;
    NextIsReady(p, agents, ids, n, before, mid, table, from, f);
    assert ids[n] !in ids[..n];
    StillExplained(p, agents, f, ids[n], w);
    TryLonger(ids, n, f, Scheduled(w));
    StartOne(before, mid, f.work, f.overBudget, w, after[ids[n]]);
    AddToWave(p, f.work, w);
    AddStaysApart(table, f.work, from, w, w.lease.grantedAt);
    AddToTable(table, f.work, from, w, w.lease.grantedAt, to);
  }

  lemma TryOverBudget(p: Plan, agents: seq<AgentDefinition>, ids: seq<TaskId>, n: nat, before: Tasks, mid: Tasks, after: Tasks,
                      table: LeaseTable, from: Time, to: Time, f: WaveSoFar)
    requires WaveIds(p, ids, before) && Forming(p, agents, ids, n, before, mid, table, from, f) && n < |ids| && from <= to
    requires EscalatedOne(ids[n], mid, after) && ids[n] in p.contracts && HasCandidate(agents, p.contracts[ids[n]], f.active)
    ensures Forming(p, agents, ids, n + 1, before, after, table, to, WithAttempt(f, ids[n], OverBudget))
  {
    hide HasCandidate, ClashesWith, WaveShape, WaveIsDisjoint, GivenToCandidate, IsEscalation, OnlyLeased, TriedOnly, LiveAt, IsTableOf;
    LaterTableStays(table, f.work, from, to);
    FewerCandidates(agents, p.contracts[ids[n]], {}, f.active);
    NextIsReady(p, agents, ids, n, before, mid, table, from, f);
    assert ids[n] !in ids[..n];
    TryLonger(ids, n, f, OverBudget);
    OverBudgetOne(before, mid, f.work, f.overBudget, ids[n], after[ids[n]]);
  }

  lemma TryNothing(p: Plan, agents: seq<AgentDefinition>, ids: seq<TaskId>, n: nat, before: Tasks, mid: Tasks,
                   table: LeaseTable, table': LeaseTable, from: Time, to: Time, f: WaveSoFar, r: LeaseAttempt)
    requires WaveIds(p, ids, before) && Forming(p, agents, ids, n, before, mid, table, from, f) && n < |ids| && from <= to
    requires |f.work| < p.maxWorkers && ids[n] in p.contracts
    requires r.Refused? ==>
               && from <= r.at <= to && table' == LiveAt(table, r.at)
               && CandidateRefused(agents, p.contracts[ids[n]], f.active, LiveAt(table, r.at), p.maxWorkers)
    requires r.Refused? || (r.NoAgent? && table' == table && !HasCandidate(agents, p.contracts[ids[n]], f.active))
    ensures Forming(p, agents, ids, n + 1, before, mid, table', to, WithAttempt(f, ids[n], r))
  {
    hide OnlyLeased, TriedOnly, LiveAt, GivenToCandidate, WaveShape, WaveIsDisjoint, HoldsAll, HoldsOnly, HasCandidate, ClashesWith, CandidateRefused;
    assert ids[n] !in ids[..n];
    if r.Refused? {
      LiveTableStays(table, f.work, from, r.at, to);
      RefusedClashes(p, agents, f, p.contracts[ids[n]], table, r.at);
    } else {
      LaterTableStays(table, f.work, from, to);
    }
    TryLonger(ids, n, f, r);
  }

  lemma TryOne(p: Plan, agents: seq<AgentDefinition>, ids: seq<TaskId>, n: nat, before: Tasks, mid: Tasks, after: Tasks,
               table: LeaseTable, table': LeaseTable, from: Time, to: Time, f: WaveSoFar, r: LeaseAttempt)
    requires WaveIds(p, ids, before) && Forming(p, agents, ids, n, before, mid, table, from, f) && n < |ids| && from <= to
    requires |f.work| < p.maxWorkers && ids[n] in p.contracts && p.contracts[ids[n]].taskId == ids[n]
    requires LeasedOne(agents, p.contracts[ids[n]], f.active, p.maxWorkers, r, mid, after, table, table', from, to) && !r.NotAuthorised?
    ensures Forming(p, agents, ids, n + 1, before, after, table', to, WithAttempt(f, ids[n], r))
  {
    hide WaveIds, Forming, GivenToCandidate, StartedOne, EscalatedOne, GrantedOne, LiveAt, WithAttempt, HasCandidate, CandidateRefused;
    match r
    case Scheduled(w) => TryScheduled(p, agents, ids, n, before, mid, after, table, table', from, to, f, w);
    case OverBudget => TryOverBudget(p, agents, ids, n, before, mid, after, table, from, to, f);
    case _ => TryNothing(p, agents, ids, n, before, mid, table, table', from, to, f, r);
  }

  lemma NotAuthorisedChangesNothing(agents: seq<AgentDefinition>, c: TaskContract, active: set<string>, maxWorkers: nat,
                                    before: Tasks, after: Tasks, table: LeaseTable, table': LeaseTable, from: Time, to: Time)
    requires LeasedOne(agents, c, active, maxWorkers, NotAuthorised, before, after, table, table', from, to)
    ensures after == before && table' == table && HasBadPath(agents, c, {})
  {
    hide HasBadPath;
    FewerCandidates(agents, c, {}, active);
  }

  lemma KeepForming(p: Plan, agents: seq<AgentDefinition>, ids: seq<TaskId>, n: nat, before: Tasks, mid: Tasks,
                    table: LeaseTable, from: Time, to: Time, f: WaveSoFar)
    requires Forming(p, agents, ids, n, before, mid, table, from, f) && from <= to
    ensures Forming(p, agents, ids, n, before, mid, table, to, f)
  {
    hide OnlyLeased, TriedOnly, WaveOk, IsTableOf, Explained;
    LaterTableStays(table, f.work, from, to);
  }

  lemma TableNeedsWork(table: LeaseTable, work: seq<Work>)
    requires HoldsOnly(table, work) && table != map[]
    ensures work != []
  {
    assert table.Keys != {};
    var id :| id in table;
    var w :| w in work && w.lease == table[id];
  }

  lemma LaterTableStays(table: LeaseTable, work: seq<Work>, now: Time, later: Time)
    requires IsTableOf(table, work, now) && now <= later
    ensures IsTableOf(table, work, later)
  {
  }

  lemma StartForming(p: Plan, agents: seq<AgentDefinition>, ids: seq<TaskId>, tasks: Tasks, now: Time)
    requires PlanValid(p)
    ensures Forming(p, agents, ids, 0, tasks, tasks, map[], now, EMPTY_WAVE)
  {
    hide PlanValid, WaveShape, WaveIsDisjoint, IsTableOf, TriedOnly, OnlyLeased;
    StartWave(p, tasks, ids, now);
  }

  // ----- Applying a result -----

  function AppliedTask(c: TaskContract, t: WorkflowTask, v: Verdict, at: Time): WorkflowTask {
    match v
    case Passed(artifacts, reason) =>
      t.(status := Completed, lease := None, completedAt := Some(at), updatedAt := at, blocker := None, category := None,
         outputs := SortBy(AtMost, artifacts), noArtifactReason := reason)
    case Rejected(error, category, retryable) =>
      if retryable && t.attemptCount < c.maxAttempts then
        t.(status := Retry, retryCount := t.retryCount + 1, lease := None, completedAt := None, updatedAt := at, blocker := None,
           lastError := Some(error), category := Some(category), noArtifactReason := None)
      else Escalate(t, error, category, at)
  }

  lemma CompletionIsTwoMoves(c: TaskContract, t: WorkflowTask, artifacts: seq<string>, reason: Option<string>, at1: Time, at2: Time)
    ensures Move(Move(t, Validating, PLAIN, at1), Completed, PLAIN.(outputs := Some(SortBy(AtMost, artifacts)), reason := reason), at2)
         == AppliedTask(c, t, Passed(artifacts, reason), at2)
  {
    hide SortBy;
  }

  lemma ValidatingTask(t: WorkflowTask, at: Time)
    ensures var v := Move(t, Validating, PLAIN, at); v.status == Validating && v.attemptCount == t.attemptCount
  {
  }

  lemma RejectionIsTwoMoves(c: TaskContract, t: WorkflowTask, error: string, category: FailureCategory, retryable: bool, at1: Time, at2: Time)
    ensures retryable && t.attemptCount < c.maxAttempts ==> (
              AppliedTask(c, t, Rejected(error, category, retryable), at2)
              == Move(Move(t, Validating, PLAIN, at1), Retry, FailureDetails(error, category), at2))
    ensures !(retryable && t.attemptCount < c.maxAttempts) ==> (
              AppliedTask(c, t, Rejected(error, category, retryable), at2)
              == Escalate(Move(t, Validating, PLAIN, at1), error, category, at2))
  {
  }

  lemma FirstOfWave(p: Plan, work: seq<Work>, tasks: Tasks)
    requires WaveShape(p, work) && RunningExactly(tasks, work) && work != []
    ensures var c := work[0].contract;
            c.taskId in p.contracts && p.contracts[c.taskId] == c && c.taskId in tasks && tasks[c.taskId].status == Running
  {
    hide LeaseFits, InWave;
    assert work[0] in work;
  }

  /** Every applied result uses up at least one of the rounds its task had left. */
  lemma ApplyingUsesARound(c: TaskContract, t: WorkflowTask, v: Verdict, at: Time)
    requires t.status == Running && t.retryCount < c.maxAttempts
    ensures Outstanding(c, AppliedTask(c, t, v, at)) < Outstanding(c, t)
  {
    hide SortBy;
  }

  /** The gate a task opens. */
  function GateOf(gates: seq<Gate>, id: TaskId): (r: Option<Gate>)
    ensures r.Some? ==> r.value in gates && r.value.taskId == id
    ensures r.None? ==> forall g | g in gates :: g.taskId != id
  {
    if gates == [] then None
    else
      assert gates == [gates[0]] + gates[1..];
      var later := GateOf(gates[1..], id);
      if later.Some? then later else if gates[0].taskId == id then Some(gates[0]) else None
  }

  function OpenedGates(p: Plan, gates: map<string, bool>, id: TaskId, v: Verdict): map<string, bool> {
    if v.Passed? && GateOf(p.gates, id).Some? then gates[GateOf(p.gates, id).value.gateId := true] else gates
  }

  lemma GatesOfOneTask(p: Plan, g: Gate, h: Gate)
    requires PlanValid(p) && g in p.gates && h in p.gates
    ensures g.taskId == h.taskId || g.gateId == h.gateId ==> g == h
  {
    hide ContractValid;
    assert p.contracts[g.taskId].gateId == Some(g.gateId) && p.contracts[h.taskId].gateId == Some(h.gateId);
  }

  lemma AppliedKeepsGates(p: Plan, gates: map<string, bool>, tasks: Tasks, id: TaskId, v: Verdict, at: Time)
    requires PlanValid(p) && GatesExact(p, gates, tasks) && id in tasks && id in p.contracts && tasks[id].status == Running
    ensures GatesExact(p, OpenedGates(p, gates, id, v), tasks[id := AppliedTask(p.contracts[id], tasks[id], v, at)])
  {
    hide SortBy, PlanValid;
    var after := tasks[id := AppliedTask(p.contracts[id], tasks[id], v, at)];
    var newGates := OpenedGates(p, gates, id, v);
    forall g | g in p.gates
      ensures g.gateId in newGates && g.taskId in after && (newGates[g.gateId] <==> after[g.taskId].status == Completed)
    {
      if GateOf(p.gates, id).Some? {
        GatesOfOneTask(p, g, GateOf(p.gates, id).value);
      }
    }
    assert newGates.Keys == gates.Keys;
  }

  lemma AppliedLeavesRest(tasks: Tasks, work: seq<Work>, c: TaskContract, v: Verdict, at: Time)
    requires work != [] && work[0].contract == c && RunningExactly(tasks, work)
    requires forall k | 0 < k < |work| :: work[k].contract.taskId != c.taskId
    ensures RunningExactly(tasks[c.taskId := AppliedTask(c, tasks[c.taskId], v, at)], work[1..])
  {
    hide SortBy;
    var id := c.taskId;
    assert work[0] in work;
    var after := tasks[id := AppliedTask(c, tasks[id], v, at)];
    assert after[id].status in {Completed, Retry, Escalated};
    assert work == [work[0]] + work[1..];
    forall t | t in after && (IsActive(after[t].status) || after[t].status == Blocked) ensures InWave(work[1..], t) {
      var w :| w in work && w.contract.taskId == t;
      assert w in work[1..];
    }
    forall w | w in work[1..] ensures w.contract.taskId in after && after[w.contract.taskId].status == Running {
      var k :| 0 <= k < |work| - 1 && work[1..][k] == w;
      assert work[k + 1] == w;
    }
  }

  // ----- Artifacts and handoffs -----

  /** The task's artifacts are registered to it; every other entry stays. */
  predicate IsRegistered(before: map<string, Artifact>, after: map<string, Artifact>, names: seq<string>, id: TaskId, agentId: string) {
    && after.Keys == before.Keys + (set a | a in names)
    && (forall a | a in names :: after[a].producedByTask == id && after[a].producedByAgent == agentId)
    && (forall a | a in before && a !in names :: after[a] == before[a])
  }

  lemma RegisterOne(before: map<string, Artifact>, mid: map<string, Artifact>, names: seq<string>, i: nat, a: Artifact)
    requires i < |names| && a.artifactId == names[i]
    requires IsRegistered(before, mid, names[..i], a.producedByTask, a.producedByAgent)
    ensures IsRegistered(before, mid[names[i] := a], names[..i + 1], a.producedByTask, a.producedByAgent)
  {
    assert names[..i + 1] == names[..i] + [names[i]];
  }

  function HandoffName(from: TaskId, to: TaskId): string {
    "handoff-" + from + "-to-" + to
  }

  predicate DependsOn(c: TaskContract, id: TaskId) {
    id in c.dependencies || id in c.optionalDependencies
  }

  /** Earlier handoffs stay; those that are new hand exactly these artifacts to a dependent among the first `n`
      declared tasks, and every such dependent has one, new unless it already had one of that name. */
  predicate HandedOff(tasks: seq<TaskContract>, n: nat, before: seq<Handoff>, after: seq<Handoff>, id: TaskId, artifacts: seq<string>)
    requires n <= |tasks|
  {
    && before <= after
    && (forall h | h in after[|before|..] :: IsHandoffOf(h, id, artifacts) && IsDependent(tasks[..n], id, h.toTask))
    && (forall c | c in tasks[..n] && DependsOn(c, id) ::
          HasHandoff(before, HandoffName(id, c.taskId)) || HandedTo(after[|before|..], c.taskId))
  }

  predicate IsHandoffOf(h: Handoff, id: TaskId, artifacts: seq<string>) {
    h.fromTask == id && h.artifacts == artifacts && h.handoffId == HandoffName(id, h.toTask)
  }

  predicate IsDependent(tasks: seq<TaskContract>, id: TaskId, to: TaskId) {
    exists c | c in tasks :: DependsOn(c, id) && c.taskId == to
  }

  predicate HandedTo(handoffs: seq<Handoff>, to: TaskId) {
    exists h | h in handoffs :: h.toTask == to
  }

  predicate HasHandoff(handoffs: seq<Handoff>, name: string) {
    exists h | h in handoffs :: h.handoffId == name
  }

  lemma MoreDependents(tasks: seq<TaskContract>, n: nat, id: TaskId, to: TaskId)
    requires n < |tasks|
    ensures IsDependent(tasks[..n], id, to) ==> IsDependent(tasks[..n + 1], id, to)
    ensures DependsOn(tasks[n], id) ==> IsDependent(tasks[..n + 1], id, tasks[n].taskId)
  {
    assert tasks[..n + 1] == tasks[..n] + [tasks[n]];
    assert tasks[n] in tasks[..n + 1];
    if c :| c in tasks[..n] && DependsOn(c, id) && c.taskId == to {
      assert c in tasks[..n + 1];
    }
  }

  lemma HandOffOne(tasks: seq<TaskContract>, n: nat, before: seq<Handoff>, mid: seq<Handoff>, id: TaskId, artifacts: seq<string>, at: Time)
    requires n < |tasks| && HandedOff(tasks, n, before, mid, id, artifacts) && DependsOn(tasks[n], id)
    ensures var after := mid + [Handoff(HandoffName(id, tasks[n].taskId), id, tasks[n].taskId, artifacts, at)];
            HandedOff(tasks, n + 1, before, after, id, artifacts)
  {
    hide HandoffName, HasHandoff, IsDependent, DependsOn;
    var h := Handoff(HandoffName(id, tasks[n].taskId), id, tasks[n].taskId, artifacts, at);
    var after := mid + [h];
    assert tasks[..n + 1] == tasks[..n] + [tasks[n]];
    var old', new' := mid[|before|..], after[|before|..];
    assert new' == old' + [h];
    assert h in new';
    forall g | g in new' ensures IsHandoffOf(g, id, artifacts) && IsDependent(tasks[..n + 1], id, g.toTask) {
      MoreDependents(tasks, n, id, g.toTask);
    }
    forall c | c in tasks[..n + 1] && DependsOn(c, id)
      ensures HasHandoff(before, HandoffName(id, c.taskId)) || HandedTo(new', c.taskId)
    {
      if c in tasks[..n] && HandedTo(old', c.taskId) {
        var g :| g in old' && g.toTask == c.taskId;
        assert g in new';
      }
    }
  }

  lemma NewHandoffIsValid(mid: seq<Handoff>, h: Handoff)
    requires HandoffsValid(mid) && h.artifacts != [] && Distinct(h.artifacts) && h.fromTask != h.toTask
    requires !HasHandoff(mid, h.handoffId)
    ensures HandoffsValid(mid + [h])
  {
    var after := mid + [h];
    forall i, j | 0 <= i < j < |after| ensures after[i].handoffId != after[j].handoffId {
      if j == |mid| {
        assert mid[i] in mid;
      }
    }
  }

  lemma HandOffNone(tasks: seq<TaskContract>, n: nat, before: seq<Handoff>, mid: seq<Handoff>, id: TaskId, artifacts: seq<string>)
    requires n < |tasks| && HandedOff(tasks, n, before, mid, id, artifacts)
    requires DependsOn(tasks[n], id) ==> HasHandoff(mid, HandoffName(id, tasks[n].taskId))
    ensures HandedOff(tasks, n + 1, before, mid, id, artifacts)
  {
    hide HandoffName, HasHandoff, IsDependent, DependsOn;
    assert tasks[..n + 1] == tasks[..n] + [tasks[n]];
    forall h | h in mid[|before|..] ensures IsDependent(tasks[..n + 1], id, h.toTask) {
      MoreDependents(tasks, n, id, h.toTask);
    }
    if DependsOn(tasks[n], id) {
      EarlierOrNew(before, mid, id, artifacts, tasks[n].taskId);
    }
  }

  /** A handoff of that name was there before, or is one of the new ones to that task. */
  lemma EarlierOrNew(before: seq<Handoff>, mid: seq<Handoff>, id: TaskId, artifacts: seq<string>, to: TaskId)
    requires before <= mid && HasHandoff(mid, HandoffName(id, to))
    requires forall h | h in mid[|before|..] :: IsHandoffOf(h, id, artifacts)
    ensures HasHandoff(before, HandoffName(id, to)) || HandedTo(mid[|before|..], to)
  {
    hide HandoffName;
    var h :| h in mid && h.handoffId == HandoffName(id, to);
    assert mid == before + mid[|before|..];
    if h in mid[|before|..] {
      NameTellsRecipient(id, h.toTask, to);
    }
  }

  lemma NameTellsRecipient(id: TaskId, a: TaskId, b: TaskId)
    requires HandoffName(id, a) == HandoffName(id, b)
    ensures a == b
  {
    var prefix := "handoff-" + id + "-to-";
    assert HandoffName(id, a) == prefix + a && HandoffName(id, b) == prefix + b;
    assert a == (prefix + a)[|prefix|..] && b == (prefix + b)[|prefix|..];
  }

  lemma DependentIsAnother(p: Plan, i: nat, id: TaskId)
    requires PlanValid(p) && i < |p.tasks|
    ensures DependsOn(p.tasks[i], id) ==> p.tasks[i].taskId != id
  {
    assert p.tasks[i] in p.tasks;
  }

  lemma NoHandoffYet(tasks: seq<TaskContract>, before: seq<Handoff>, id: TaskId, artifacts: seq<string>)
    ensures HandedOff(tasks, 0, before, before, id, artifacts)
  {
    hide HasHandoff;
    assert before[|before|..] == [];
  }

  lemma NothingRegisteredYet(before: map<string, Artifact>, names: seq<string>, id: TaskId, agentId: string)
    ensures IsRegistered(before, before, names[..0], id, agentId)
  {
  }

  lemma SortedNames(artifacts: seq<string>)
    requires Distinct(artifacts)
    ensures var names := SortBy(AtMost, artifacts); Distinct(names) && SortedBy(AtMost, names) && (names == [] <==> artifacts == [])
  {
    AtMostIsTotalPreorder();
    SortByCorrect(AtMost, artifacts);
    PermutationKeepsDistinct(artifacts, SortBy(AtMost, artifacts));
    assert |multiset(SortBy(AtMost, artifacts))| == |multiset(artifacts)|;
  }

  /** The verdict a worker's answer comes to once its usage is charged. */
  function ChargeMessage(): (r: string)
    ensures r != ""
  {
    "budget limit reached"
  }

  predicate ComesTo(v: Verdict, final: Verdict) {
    final == v || (v.Passed? && final == Rejected(ChargeMessage(), BudgetExceeded, false))
  }

  /** One applied result: the verdict it came to, and when. */
  datatype Settlement = Settlement(taskId: TaskId, verdict: Verdict, at: Time)

  /** The tasks after results were applied one after the other. */
  function AfterApplying(cs: Contracts, tasks: Tasks, done: seq<Settlement>): Tasks {
    if done == [] then tasks
    else
      var before := AfterApplying(cs, tasks, done[..|done| - 1]);
      var last := done[|done| - 1];
      if last.taskId in before && last.taskId in cs
      then before[last.taskId := AppliedTask(cs[last.taskId], before[last.taskId], last.verdict, last.at)]
      else before
  }

  /** The first results of `work`, each once and in this order, at times that never go back. */
  predicate AppliesInOrder(work: seq<Work>, results: map<TaskId, Verdict>, done: seq<Settlement>, from: Time, to: Time) {
    && |done| <= |work|
    && (forall k | 0 <= k < |done| :: SettlesTask(work[k], results, done[k]) && from <= done[k].at <= to)
    && (forall j, k | 0 <= j < k < |done| :: done[j].at <= done[k].at)
  }

  predicate SettlesTask(w: Work, results: map<TaskId, Verdict>, d: Settlement) {
    d.taskId == w.contract.taskId && d.taskId in results && ComesTo(results[d.taskId], d.verdict)
  }

  lemma NothingApplied(cs: Contracts, tasks: Tasks, work: seq<Work>, results: map<TaskId, Verdict>, now: Time)
    ensures AppliesInOrder(work, results, [], now, now) && AfterApplying(cs, tasks, []) == tasks && EndedStays(tasks, tasks)
  {
  }

  /** Applying a result ends, retries or escalates the one task and leaves all others. */
  lemma AppliedIsOneTask(p: Plan, work: seq<Work>, tasks: Tasks, v: Verdict, at: Time)
    requires WaveShape(p, work) && work != []
    requires work[0].contract.taskId in tasks && tasks[work[0].contract.taskId].status == Running
    ensures var c := work[0].contract;
            var after := tasks[c.taskId := AppliedTask(c, tasks[c.taskId], v, at)];
            EndedStays(tasks, after) && IsApplied(p, after, work[0])
  {
    hide SortBy, LeaseFits;
    assert work[0] in work;
  }

  lemma OneMoreApplied(cs: Contracts, tasks: Tasks, work: seq<Work>, results: map<TaskId, Verdict>, done: seq<Settlement>, d: Settlement,
                       from: Time, mid: Time, to: Time)
    requires AppliesInOrder(work, results, done, from, mid) && |done| < |work|
    requires SettlesTask(work[|done|], results, d) && from <= mid <= d.at <= to
    requires d.taskId in AfterApplying(cs, tasks, done) && d.taskId in cs
    ensures AppliesInOrder(work, results, done + [d], from, to)
    ensures var before := AfterApplying(cs, tasks, done);
            AfterApplying(cs, tasks, done + [d]) == before[d.taskId := AppliedTask(cs[d.taskId], before[d.taskId], d.verdict, d.at)]
  {
    hide AppliedTask, SettlesTask;
    var more := done + [d];
    assert more[..|more| - 1] == done;
  }

  // ----- Releasing leases -----

  /** Releasing fails only for a lease that has expired. */
  lemma ReleaseFirst(p: Plan, s: LeaseState, work: seq<Work>, now: Time, at: Time)
    requires IsSafe(s) && WaveShape(p, work) && work != [] && IsTableOf(s.table, work, now) && now <= at
    ensures var (result, after) := ReleaseSpec(s, ByLease(work[0].lease.leaseId), Agent(work[0].agentId), at);
            && IsSafe(after) && after.maxWorkers == s.maxWorkers
            && (result.Released? ==> IsTableOf(after.table, work[1..], at))
            && (!result.Released? ==> work[0].lease.expiresAt <= at)
  {
    hide IsSafe, IsTableOf, WaveShape, ReleaseSpec, LiveAt, Matches;
    var w := work[0];
    SafeKeysAgree(s);
    ReleaseStaysSafe(s, ByLease(w.lease.leaseId), Agent(w.agentId), at);
    FirstIsHeld(p, s.table, work, now, at);
    if w.lease.leaseId in LiveAt(s.table, at) {
      OwnLeaseIsReleased(s, w, at);
      LeaseGone(p, s.table, work, now, at);
    } else {
      LostLeaseIsNotReleased(s, w, at);
    }
  }

  lemma SafeKeysAgree(s: LeaseState)
    requires IsSafe(s)
    ensures KeysAgree(s)
  {
  }

  lemma ReleaseStaysSafe(s: LeaseState, key: ReleaseKey, claim: Claim, at: Time)
    requires IsSafe(s)
    ensures IsSafe(ReleaseSpec(s, key, claim, at).1) && ReleaseSpec(s, key, claim, at).1.maxWorkers == s.maxWorkers
  {
    hide IsSafe;
    FewerLeasesStaySafe(s, ReleaseSpec(s, key, claim, at).1.table);
  }

  lemma FirstIsHeld(p: Plan, table: LeaseTable, work: seq<Work>, now: Time, at: Time)
    requires WaveShape(p, work) && work != [] && IsTableOf(table, work, now) && now <= at
    ensures work[0].lease.leaseId !in LiveAt(table, at) ==> work[0].lease.expiresAt <= at
    ensures work[0].lease.leaseId in LiveAt(table, at) ==>
              table[work[0].lease.leaseId].agentId == work[0].agentId || work[0].lease.expiresAt <= now
  {
    hide HeldForWave;
    assert work[0] in work;
    assert StillHeld(table, work[0], now) && LeaseFits(work[0]);
  }

  lemma OwnLeaseIsReleased(s: LeaseState, w: Work, at: Time)
    requires KeysAgree(s) && w.lease.leaseId in LiveAt(s.table, at)
    ensures var (result, after) := ReleaseSpec(s, ByLease(w.lease.leaseId), Agent(w.agentId), at);
            if s.table[w.lease.leaseId].agentId == w.agentId then result.Released? && after.table == WithoutLease(LiveAt(s.table, at), w.lease.leaseId)
            else !result.Released?
  {
    var live := LiveAt(s.table, at);
    var key := ByLease(w.lease.leaseId);
    var matching := map id | id in live && Matches(key, live[id]) :: live[id];
    assert w.lease.leaseId in matching;
  }

  lemma LostLeaseIsNotReleased(s: LeaseState, w: Work, at: Time)
    requires KeysAgree(s) && w.lease.leaseId !in LiveAt(s.table, at)
    ensures !ReleaseSpec(s, ByLease(w.lease.leaseId), Agent(w.agentId), at).0.Released?
  {
    var live := LiveAt(s.table, at);
    var key := ByLease(w.lease.leaseId);
    var matching := map id | id in live && Matches(key, live[id]) :: live[id];
    assert matching == map[];
  }

  function WithoutLease(table: LeaseTable, gone: LeaseId): LeaseTable {
    map id | id in table && id != gone :: table[id]
  }

  lemma LeaseGone(p: Plan, table: LeaseTable, work: seq<Work>, now: Time, at: Time)
    requires WaveShape(p, work) && work != [] && IsTableOf(table, work, now) && now <= at
    requires work[0].lease.leaseId in LiveAt(table, at)
    ensures IsTableOf(WithoutLease(LiveAt(table, at), work[0].lease.leaseId), work[1..], at)
  {
    hide LiveAt, WaveShape, HoldsAll, HoldsOnly, WithoutLease;
    LiveTableStays(table, work, now, at, at);
    GoneOnly(LiveAt(table, at), work);
    GoneAll(p, LiveAt(table, at), work, at);
  }

  lemma GoneOnly(live: LeaseTable, work: seq<Work>)
    requires work != [] && HoldsOnly(live, work)
    ensures HoldsOnly(WithoutLease(live, work[0].lease.leaseId), work[1..])
  {
    hide HoldsOnly, HeldForWave;
    var after := WithoutLease(live, work[0].lease.leaseId);
    forall id | id in after ensures after[id].leaseId == id && HeldForWave(work[1..], after[id]) {
      HeldByAnother(live, work, id);
    }
    HoldsOnlyIf(after, work[1..]);
  }

  lemma HoldsOnlyIf(table: LeaseTable, work: seq<Work>)
    requires forall id | id in table :: table[id].leaseId == id && HeldForWave(work, table[id])
    ensures HoldsOnly(table, work)
  {
    hide HeldForWave;
  }

  lemma HeldByAnother(live: LeaseTable, work: seq<Work>, id: LeaseId)
    requires work != [] && HoldsOnly(live, work) && id in live && id != work[0].lease.leaseId
    ensures live[id].leaseId == id && HeldForWave(work[1..], live[id])
  {
    assert HeldForWave(work, live[id]);
    var k :| 0 <= k < |work| && work[k].lease == live[id];
    assert work[1..][k - 1] == work[k];
  }

  lemma GoneAll(p: Plan, live: LeaseTable, work: seq<Work>, at: Time)
    requires WaveShape(p, work) && work != [] && HoldsAll(live, work, at)
    ensures HoldsAll(WithoutLease(live, work[0].lease.leaseId), work[1..], at)
  {
    hide WaveShape, LeaseFits;
    var after := WithoutLease(live, work[0].lease.leaseId);
    forall u | u in work[1..] ensures StillHeld(after, u, at) {
      assert u in work;
      assert StillHeld(live, u, at) && StillHeld(live, work[0], at);
      OthersDiffer(p, work, u);
      FittingLeases(p, work, u);
      FittingLeases(p, work, work[0]);
    }
  }

  lemma FittingLeases(p: Plan, work: seq<Work>, w: Work)
    requires WaveShape(p, work) && w in work
    ensures w.lease.leaseId.taskId == w.contract.taskId && w.lease.agentId == w.agentId
  {
    assert LeaseFits(w);
  }

  lemma OthersDiffer(p: Plan, work: seq<Work>, u: Work)
    requires WaveShape(p, work) && work != [] && u in work[1..]
    ensures u.contract.taskId != work[0].contract.taskId && u.agentId != work[0].agentId
  {
    hide LeaseFits;
    var k :| 0 <= k < |work| - 1 && work[1..][k] == u;
    assert work[k + 1] == u;
  }

  lemma ShorterWave(p: Plan, work: seq<Work>)
    requires WaveShape(p, work) && work != []
    ensures WaveShape(p, work[1..])
    ensures forall k | 0 < k < |work| :: work[k].contract.taskId != work[0].contract.taskId
  {
    hide LeaseFits;
    forall w | w in work[1..] ensures w in work {
    }
    forall k | 0 < k < |work| ensures work[k].contract.taskId != work[0].contract.taskId {
      assert work[0].contract.taskId != work[k].contract.taskId;
    }
    forall j, k | 0 <= j < k < |work| - 1
      ensures work[1..][j].contract.taskId != work[1..][k].contract.taskId && work[1..][j].agentId != work[1..][k].agentId
    {
      assert work[1..][j] == work[j + 1] && work[1..][k] == work[k + 1];
    }
  }

  predicate ByTaskId(a: Work, b: Work) {
    AtMost(a.contract.taskId, b.contract.taskId)
  }

  /** The wave in the order its results are applied. */
  lemma SortedWave(p: Plan, work: seq<Work>, tasks: Tasks, table: LeaseTable, now: Time)
    requires WaveShape(p, work) && RunningExactly(tasks, work) && IsTableOf(table, work, now)
    ensures var sorted := SortBy(ByTaskId, work);
            && SortedBy(ByTaskId, sorted) && |sorted| == |work|
            && WaveShape(p, sorted) && RunningExactly(tasks, sorted) && IsTableOf(table, sorted, now)
            && forall w :: w in sorted <==> w in work
  {
    hide LeaseFits, SortBy;
    AtMostIsTotalPreorder();
    ByTaskIdIsTotalPreorder();
    var sorted := SortBy(ByTaskId, work);
    SortByCorrect(ByTaskId, work);
    forall w ensures w in sorted <==> w in work {
      assert w in multiset(sorted) <==> w in multiset(work);
    }
    assert |multiset(sorted)| == |multiset(work)|;
    assert Distinct(work);
    PermutationKeepsDistinct(work, sorted);
    PermutedShape(p, work, sorted);
    PermutedRunning(tasks, work, sorted);
  }

  lemma ByTaskIdIsTotalPreorder()
    ensures TotalPreorder(ByTaskId)
  {
    AtMostIsTotalPreorder();
    forall a: Work, b: Work ensures ByTaskId(a, b) || ByTaskId(b, a) {
      assert AtMost(a.contract.taskId, b.contract.taskId) || AtMost(b.contract.taskId, a.contract.taskId);
    }
    forall a: Work, b: Work, c: Work | ByTaskId(a, b) && ByTaskId(b, c) ensures ByTaskId(a, c) {
      assert AtMost(a.contract.taskId, b.contract.taskId) && AtMost(b.contract.taskId, c.contract.taskId);
    }
  }

  lemma PermutedShape(p: Plan, work: seq<Work>, sorted: seq<Work>)
    requires WaveShape(p, work) && Distinct(sorted) && |sorted| == |work| && forall w :: w in sorted <==> w in work
    ensures WaveShape(p, sorted)
  {
    hide LeaseFits;
    forall j, k | 0 <= j < k < |sorted|
      ensures sorted[j].contract.taskId != sorted[k].contract.taskId && sorted[j].agentId != sorted[k].agentId
    {
      assert sorted[j] in work && sorted[k] in work && sorted[j] != sorted[k];
      var a :| 0 <= a < |work| && work[a] == sorted[j];
      var b :| 0 <= b < |work| && work[b] == sorted[k];
    }
  }

  lemma PermutedRunning(tasks: Tasks, work: seq<Work>, sorted: seq<Work>)
    requires RunningExactly(tasks, work) && forall w :: w in sorted <==> w in work
    ensures RunningExactly(tasks, sorted)
  {
    forall t | InWave(work, t) ensures InWave(sorted, t) {
      var w :| w in work && w.contract.taskId == t;
      assert w in sorted;
    }
  }

  lemma NoneRunningIsIdle(tasks: Tasks, table: LeaseTable, now: Time)
    requires RunningExactly(tasks, []) && IsTableOf(table, [], now)
    ensures IsIdle(tasks) && table == map[]
  {
    assert forall id :: id !in table;
  }

  // ----- How a run ends -----

  datatype Outcome =
    | CompletedRun
    | FailedRun
    | Paused
    | NoProgress(noAgent: set<TaskId>, overBudget: set<TaskId>)
    | OutOfBudget
    | LeaseLost(work: Work)
    | UnauthorisedPath(taskId: TaskId)
    | Interrupted

  datatype RoundResult = WaveDone | OtherProgress | Stopped(outcome: Outcome)

  /** How often the budget account has refused a checkpoint, and how often the process was stopped. */
  datatype Answers = Answers(refusals: nat, interruptions: nat)

  /** The one answer a run ends on, if it ends on an answer. */
  function Answered(a: Answers, o: Outcome): Answers {
    match o
    case OutOfBudget => a.(refusals := a.refusals + 1)
    case Interrupted => a.(interruptions := a.interruptions + 1)
    case _ => a
  }

  function AnsweredBy(a: Answers, r: RoundResult): Answers {
    if r.Stopped? then Answered(a, r.outcome) else a
  }

  /** Not the end of the workflow: an exception, or the process stopping. */
  predicate IsAbrupt(o: Outcome) {
    !o.CompletedRun? && !o.FailedRun? && !o.Paused?
  }

  /** The final task, every mandatory task and every gate. */
  predicate IsComplete(p: Plan, s: WorkflowState) {
    && p.finalTask in s.tasks && s.tasks[p.finalTask].status == Completed
    && (forall c | c in p.tasks && !c.optional :: c.taskId in s.tasks && s.tasks[c.taskId].status == Completed)
    && (forall g | g in s.gates :: s.gates[g])
  }

  /** The task of a wave whose result has been applied. */
  predicate IsApplied(p: Plan, tasks: Tasks, w: Work) {
    var id := w.contract.taskId;
    && id in p.contracts && p.contracts[id] == w.contract && LeaseFits(w)
    && id in tasks && tasks[id].status in {Completed, Retry, Escalated}
  }

  /** What the state of the run shows when it ends with an outcome. */
  ghost predicate Justifies(p: Plan, agents: seq<AgentDefinition>, s: WorkflowState, now: Time, waves: nat, maxWaves: Option<nat>, outcome: Outcome) {
    match outcome
    case CompletedRun => AllTerminal(s.tasks) && IsComplete(p, s)
    case FailedRun => AllTerminal(s.tasks) && !IsComplete(p, s)
    case Paused => maxWaves == Some(waves) && !AllTerminal(s.tasks)
    case NoProgress(noAgent, overBudget) => IsStalled(p, agents, s.tasks, noAgent, overBudget)
    case LeaseLost(w) => IsApplied(p, s.tasks, w) && w.lease.expiresAt <= now
    case UnauthorisedPath(id) => id in p.contracts && id in s.tasks && s.tasks[id].status == Ready && HasBadPath(agents, p.contracts[id], {})
    case OutOfBudget => true
    case Interrupted => true
  }

  /** What one pass of the loop did to the tasks before a wave is run: marking, skipping, leasing. */
  datatype Pass = Pass(marked: Tasks, skipped: Tasks, leased: Tasks, wave: WaveSoFar)

  ghost predicate IsPass(p: Plan, agents: seq<AgentDefinition>, before: Tasks, pass: Pass) {
    && OnlyMarked(before, pass.marked) && AllMarked(p.contracts, pass.marked)
    && OnlySkipped(p.contracts, pass.marked, pass.skipped)
    && OnlyLeased(pass.skipped, pass.leased, pass.wave.work, pass.wave.overBudget)
    && WaveOk(p, agents, pass.wave) && Explained(p, agents, pass.wave)
  }

  /** Every ready task is in the wave, or is accounted for. */
  predicate AllTried(pass: Pass) {
    forall t | t in pass.skipped && pass.skipped[t].status == Ready ::
      InWave(pass.wave.work, t) || t in pass.wave.noAgent || t in pass.wave.overBudget || t in pass.wave.refused
  }

  lemma PassFormed(p: Plan, agents: seq<AgentDefinition>, ids: seq<TaskId>, n: nat, before: Tasks, marked: Tasks, skipped: Tasks, leased: Tasks,
                   table: LeaseTable, now: Time, f: WaveSoFar)
    requires OnlyMarked(before, marked) && AllMarked(p.contracts, marked) && OnlySkipped(p.contracts, marked, skipped)
    requires Forming(p, agents, ids, n, skipped, leased, table, now, f)
    ensures IsPass(p, agents, before, Pass(marked, skipped, leased, f))
    ensures WaveIds(p, ids, skipped) && n == |ids| ==> AllTried(Pass(marked, skipped, leased, f))
  {
    hide OnlyMarked, AllMarked, OnlySkipped, OnlyLeased, WaveOk, Explained, IsTableOf, InWave;
    assert ids[..|ids|] == ids;
  }

  predicate NoneWaitingForWork(before: Tasks, noAgent: set<TaskId>, overBudget: set<TaskId>) {
    forall t | t in before && before[t].status == Ready :: t in noAgent || t in overBudget
  }

  /** Every task required by the final task, directly or through others, is completed. */
  ghost predicate FinalStandsOnCompleted(p: Plan, tasks: Tasks) {
    forall chain, i | IsRequiredChain(p.contracts, chain) && chain[0] == p.finalTask && 0 <= i < |chain| ::
      chain[i] in tasks && tasks[chain[i]].status == Completed
  }

  lemma CompletedFinal(p: Plan, s: WorkflowState, rec: Recoveries, now: Time)
    requires SoundState(p, s, rec, now) && IsComplete(p, s)
    ensures FinalStandsOnCompleted(p, s.tasks)
  {
    hide TasksOk, PlanValid, BooksOk, Requires;
    forall chain, i | IsRequiredChain(p.contracts, chain) && chain[0] == p.finalTask && 0 <= i < |chain|
      ensures chain[i] in s.tasks && s.tasks[chain[i]].status == Completed
    {
      CompletedAllTheWay(p.contracts, s.tasks, rec, chain, i);
    }
  }

  lemma RecoveryKeepsEnded(before: Tasks, after: Tasks)
    requires AllRecovered(before, after)
    ensures EndedStays(before, after)
  {
    hide InterruptedReason, RecoverToReady;
    forall t | t in before && IsTerminal(before[t].status) ensures after[t] == before[t] {
      assert IsRecovered(before[t], after[t]);
    }
  }

  lemma SameCompletion(p: Plan, a: WorkflowState, b: WorkflowState)
    requires a.tasks == b.tasks && a.gates == b.gates
    ensures IsComplete(p, a) <==> IsComplete(p, b)
  {
  }

  lemma SoundWorkers(p: Plan, s: WorkflowState, rec: Recoveries, now: Time)
    requires SoundState(p, s, rec, now)
    ensures 1 <= p.maxWorkers <= 3
  {
    WorkersBounded(p);
  }

  /** What is true when the main loop gives up. */
  ghost predicate IsStalled(p: Plan, agents: seq<AgentDefinition>, tasks: Tasks, noAgent: set<TaskId>, overBudget: set<TaskId>) {
    && NothingToPropagate(p.contracts, tasks)
    && (forall t | t in tasks :: tasks[t].status == Ready <==> t in noAgent)
    && NoAgentFor(p, agents, noAgent)
    && (forall t | t in overBudget :: t in tasks && tasks[t].status == Escalated)
    && (noAgent == {} ==> (overBudget != {} && AllTerminal(tasks)) || StuckOnOption(p, tasks))
  }

  /** No agent at all, busy or not, may take these tasks. */
  predicate NoAgentFor(p: Plan, agents: seq<AgentDefinition>, noAgent: set<TaskId>) {
    forall t | t in noAgent :: t in p.contracts && !HasCandidate(agents, p.contracts[t], {})
  }

  /** The first open task waits on an escalated optional dependency. */
  ghost predicate StuckOnOption(p: Plan, tasks: Tasks) {
    && (forall t | t in p.order :: t in tasks && t in p.contracts)
    && exists k: nat :: IsFirstOpen(p, tasks, k) && HasEscalatedOption(p.contracts[p.order[k]], tasks)
  }

  /** At the top of the loop, once marked: something is ready, or propagation will escalate something,
      or the first open task waits on an escalated option. */
  lemma AfterMarking(p: Plan, tasks: Tasks)
    requires PlanValid(p) && tasks.Keys == p.contracts.Keys && IsIdle(tasks) && AllMarked(p.contracts, tasks) && !AllTerminal(tasks)
    ensures !NoneReady(tasks) || !NothingToPropagate(p.contracts, tasks) || StuckOnOption(p, tasks)
  {
    if NoneReady(tasks) && NothingToPropagate(p.contracts, tasks) {
      var k := FirstOpen(p, tasks);
      NothingReadyMeans(p, tasks, k);
      var t := p.order[k];
      assert t in p.order;
      assert IsWaiting(tasks[t].status);
    }
  }

  lemma LeasingKeepsUnready(cs: Contracts, before: Tasks, after: Tasks, overBudget: set<TaskId>)
    requires OnlyLeased(before, after, [], overBudget) && AllMarked(cs, before) && IsIdle(before)
    ensures AllMarked(cs, after) && IsIdle(after)
  {
    forall t | t in after
      ensures (t in overBudget && before[t].status == Ready && after[t].status == Escalated) || after[t] == before[t]
    {
      LeasedTask(before, after, [], overBudget, t);
    }
    forall t | t in after && t in cs && (after[t].status == Pending || after[t].status == Retry)
      ensures !DependenciesDone(cs[t], after)
    {
      assert after[t] == before[t];
    }
  }

  lemma MarkingKeepsOpen(before: Tasks, after: Tasks)
    requires OnlyMarked(before, after) && !AllTerminal(before)
    ensures !AllTerminal(after)
  {
    var t :| t in before && !IsTerminal(before[t].status);
    assert after[t] == before[t] || IsMarked(before[t], after[t]);
  }

  lemma FormedNothing(p: Plan, agents: seq<AgentDefinition>, ids: seq<TaskId>, before: Tasks, after: Tasks,
                      table: LeaseTable, now: Time, f: WaveSoFar)
    requires WaveIds(p, ids, before) && Forming(p, agents, ids, |ids|, before, after, table, now, f) && f.work == []
    ensures OnlyLeased(before, after, [], f.overBudget) && NoneWaitingForWork(before, f.noAgent, f.overBudget)
    ensures forall t | t in f.noAgent :: t in before && before[t].status == Ready && t !in f.overBudget
    ensures NoAgentFor(p, agents, f.noAgent)
    ensures table == map[] && before.Keys == p.contracts.Keys
  {
    hide OnlyLeased, WaveShape, WaveIsDisjoint, GivenToCandidate, HoldsAll, HasCandidate;
    assert ids[..|ids|] == ids;
    assert f.active == {};
    if table != map[] {
      TableNeedsWork(table, f.work);
    }
  }

  /** The wave that was formed, as its execution needs it. */
  lemma FormedWave(p: Plan, agents: seq<AgentDefinition>, gates: map<string, bool>, ids: seq<TaskId>, n: nat, before: Tasks, after: Tasks,
                   table: LeaseTable, now: Time, f: WaveSoFar)
    requires WaveIds(p, ids, before) && Forming(p, agents, ids, n, before, after, table, now, f)
    requires GatesExact(p, gates, before) && IsIdle(before)
    ensures GatesExact(p, gates, after) && IsRestful(after) && RunningExactly(after, f.work) && EndedStays(before, after)
    ensures WaveOk(p, agents, f) && WaveShape(p, f.work) && IsTableOf(table, f.work, now)
  {
    hide GatesExact, IsIdle, IsRestful, RunningExactly, WaveShape, WaveIsDisjoint, OnlyLeased, IsTableOf, TriedOnly, GivenToCandidate, WaveIds,
      EndedStays, Explained;
    LeasedKeepsGates(p, gates, before, after, f.work, f.overBudget);
  }

  lemma GivingUpMeansStalled(p: Plan, agents: seq<AgentDefinition>, before: Tasks, tasks: Tasks, noAgent: set<TaskId>, overBudget: set<TaskId>)
    requires PlanValid(p) && before.Keys == p.contracts.Keys && NoAgentFor(p, agents, noAgent)
    requires IsIdle(before) && AllMarked(p.contracts, before) && !AllTerminal(before)
    requires OnlyLeased(before, tasks, [], overBudget) && NoneWaitingForWork(before, noAgent, overBudget)
    requires forall t | t in noAgent :: t in before && before[t].status == Ready && t !in overBudget
    requires NothingToPropagate(p.contracts, tasks)
    ensures IsStalled(p, agents, tasks, noAgent, overBudget)
  {
    hide PlanValid, AllMarked, NothingToPropagate, StuckOnOption, NoAgentFor;
    LeasingKeepsUnready(p.contracts, before, tasks, overBudget);
    forall t | t in tasks ensures tasks[t].status == Ready <==> t in noAgent {
      LeasedTask(before, tasks, [], overBudget, t);
    }
    forall t | t in overBudget ensures t in tasks && tasks[t].status == Escalated {
      LeasedTask(before, tasks, [], overBudget, t);
    }
    forall t | t in tasks ensures tasks[t] == before[t] || t in overBudget {
      LeasedTask(before, tasks, [], overBudget, t);
    }
    assert overBudget == {} ==> tasks == before;
    if noAgent == {} && !AllTerminal(tasks) {
      AfterMarking(p, tasks);
    }
  }
}
