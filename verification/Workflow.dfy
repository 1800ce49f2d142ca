/** A validated workflow, what holds of its tasks at every moment, and how much work is left. */
module Workflow {
  import opened Wrappers
  import opened Ordering
  import opened Scopes
  import opened Lifecycle
  import Graph

  datatype TaskContract = TaskContract(
    taskId: TaskId,
    owner: string,
    taskType: string,
    gateId: Option<string>,
    dependencies: seq<TaskId>,
    optionalDependencies: seq<TaskId>,
    optional: bool,
    files: seq<Scope>,
    maxAttempts: nat,
    needsGpu: bool)

  datatype Gate = Gate(gateId: string, taskId: TaskId)

  type Contracts = map<TaskId, TaskContract>
  type Tasks = map<TaskId, WorkflowTask>

  /** The declared workflow, its tasks by identifier, and their scheduling order. */
  datatype Plan = Plan(
    workflowId: string,
    tasks: seq<TaskContract>,
    gates: seq<Gate>,
    finalTask: TaskId,
    maxWorkers: nat,
    contracts: Contracts,
    order: seq<TaskId>)

  predicate ContractValid(c: TaskContract) {
    && Distinct(c.dependencies + c.optionalDependencies)
    && c.taskId != "" && c.taskId !in c.dependencies && c.taskId !in c.optionalDependencies
    && 1 <= c.maxAttempts <= 3
    && c.files != []
    && (c.needsGpu ==> c.optional)
  }

  function AllDependencies(cs: Contracts): Graph.Dependencies {
    map t | t in cs :: cs[t].dependencies + cs[t].optionalDependencies
  }

  ghost predicate PlanValid(p: Plan) {
    && (forall t | t in p.contracts :: p.contracts[t].taskId == t && ContractValid(p.contracts[t]))
    && (forall t | t in p.contracts :: p.contracts[t] in p.tasks)
    && (forall c | c in p.tasks :: c.taskId in p.contracts && p.contracts[c.taskId] == c)
    && Graph.WellFormed(AllDependencies(p.contracts))
    && Graph.IsTopological(AllDependencies(p.contracts), p.order)
    && p.finalTask in p.contracts
    && 1 <= p.maxWorkers <= 3
    && p.gates != []
    && (forall i, j | 0 <= i < j < |p.gates| :: p.gates[i].gateId != p.gates[j].gateId)
    && (forall g | g in p.gates :: g.taskId in p.contracts && p.contracts[g.taskId].gateId == Some(g.gateId))
  }

  // ----- What holds of every task -----

  predicate RequiredDone(c: TaskContract, tasks: Tasks) {
    forall d | d in c.dependencies :: d in tasks && tasks[d].status == Completed
  }

  predicate OptionalSettled(c: TaskContract, tasks: Tasks) {
    forall d | d in c.optionalDependencies :: d in tasks && (tasks[d].status == Completed || tasks[d].status == Cancelled)
  }

  /** The readiness test of the dependency graph. */
  predicate DependenciesDone(c: TaskContract, tasks: Tasks) {
    RequiredDone(c, tasks) && OptionalSettled(c, tasks)
  }

  /** Statuses only a task whose dependencies are done may have. */
  predicate HasStarted(s: Status) {
    s == Ready || IsActive(s) || s == Retry || s == Completed
  }

  /** An attempt has begun and nothing has come of it yet. */
  predicate IsUnderWay(s: Status) {
    s == Running || s == Validating
  }

  /** Retries stay below the limit. Every attempt was retried, cut short by a crash, or is the one at hand; only of an
      escalated task the status does not tell whether it had begun. */
  predicate CountsOk(c: TaskContract, t: WorkflowTask, recoveries: nat) {
    var spent := t.retryCount + recoveries;
    && t.retryCount < c.maxAttempts
    && match t.status
       case Running | Validating | Completed => t.attemptCount == spent + 1
       case Blocked | Escalated => t.attemptCount == spent || t.attemptCount == spent + 1
       case Pending | Ready | Leased | Retry | Cancelled => t.attemptCount == spent
  }

  predicate TaskOk(c: TaskContract, t: WorkflowTask, recoveries: nat, tasks: Tasks) {
    && t.taskId == c.taskId && t.optional == c.optional
    && TaskValid(t)
    && CountsOk(c, t, recoveries)
    && (t.status != Completed ==> t.outputs == [])
    && (HasStarted(t.status) ==> DependenciesDone(c, tasks))
  }

  /** How many attempts of each task crashes have cut short. */
  type Recoveries = map<TaskId, nat>

  function CutShort(t: WorkflowTask, recoveries: nat): nat {
    if IsUnderWay(t.status) then recoveries + 1 else recoveries
  }

  predicate TasksOk(cs: Contracts, tasks: Tasks, rec: Recoveries) {
    && tasks.Keys == cs.Keys == rec.Keys
    && forall t | t in tasks :: TaskOk(cs[t], tasks[t], rec[t], tasks)
  }

  /** A required dependency that will never complete. */
  predicate HasFailedRequirement(c: TaskContract, tasks: Tasks) {
    exists d | d in c.dependencies :: d in tasks && tasks[d].status in {Blocked, Escalated, Cancelled}
  }

  predicate NothingToPropagate(cs: Contracts, tasks: Tasks) {
    forall t | t in tasks && t in cs :: IsWaiting(tasks[t].status) ==> !HasFailedRequirement(cs[t], tasks)
  }

  /** An optional dependency that ended in escalation: readiness never accepts it, propagation never looks at it. */
  predicate HasEscalatedOption(c: TaskContract, tasks: Tasks) {
    exists d | d in c.optionalDependencies :: d in tasks && tasks[d].status == Escalated
  }

  /** No worker is busy and nothing is half way to escalation. */
  predicate IsIdle(tasks: Tasks) {
    forall t | t in tasks :: !IsActive(tasks[t].status) && tasks[t].status != Blocked
  }

  predicate AllTerminal(tasks: Tasks) {
    forall t | t in tasks :: IsTerminal(tasks[t].status)
  }

  predicate NoneReady(tasks: Tasks) {
    forall t | t in tasks :: tasks[t].status != Ready
  }

  /** Nothing still pending or to be retried could be marked ready. */
  predicate AllMarked(cs: Contracts, tasks: Tasks) {
    forall t | t in tasks && t in cs :: tasks[t].status == Pending || tasks[t].status == Retry ==> !DependenciesDone(cs[t], tasks)
  }

  // ----- One task changes -----

  /** A task that others may rely on keeps the status they rely on. */
  predicate KeepsPromises(from: Status, to: Status) {
    (from == Completed ==> to == Completed) && (from == Cancelled ==> to == Completed || to == Cancelled)
  }

  lemma ReplacingKeepsTasksOk(cs: Contracts, tasks: Tasks, rec: Recoveries, rec': Recoveries, id: TaskId, t: WorkflowTask)
    requires TasksOk(cs, tasks, rec) && id in tasks && KeepsPromises(tasks[id].status, t.status)
    requires rec'.Keys == rec.Keys && forall k | k in rec && k != id :: rec'[k] == rec[k]
    requires TaskOk(cs[id], t, rec'[id], tasks)
    ensures TasksOk(cs, tasks[id := t], rec')
  {
    hide TaskOk, KeepsPromises;
    var after := tasks[id := t];
    forall k | k in after ensures TaskOk(cs[k], after[k], rec'[k], after) {
      TaskStaysOk(cs[k], if k == id then t else tasks[k], rec'[k], tasks, id, t);
    }
  }

  lemma TaskStaysOk(c: TaskContract, u: WorkflowTask, recoveries: nat, tasks: Tasks, id: TaskId, t: WorkflowTask)
    requires TaskOk(c, u, recoveries, tasks) && id in tasks && KeepsPromises(tasks[id].status, t.status)
    ensures TaskOk(c, u, recoveries, tasks[id := t])
  {
    hide TaskValid, CountsOk;
  }

  /** The moves the supervisor makes. */
  predicate IsSupervisorMove(c: TaskContract, t: WorkflowTask, tasks: Tasks, target: Status, d: Details) {
    && MayMove(t, target, d) && DetailsValid(d)
    && t.status != Escalated
    && (target == Blocked ==> d.blocker.Some?)
    && (target == Ready ==> DependenciesDone(c, tasks))
    && (target == Retry ==> t.attemptCount < c.maxAttempts)
    && (d.outputs.Some? ==> target == Completed && Distinct(d.outputs.value) && (d.outputs.value != [] ==> d.reason.None?))
  }

  lemma SupervisorMoveKeepsTasksOk(cs: Contracts, tasks: Tasks, rec: Recoveries, id: TaskId, target: Status, d: Details, at: Time)
    requires TasksOk(cs, tasks, rec) && id in tasks && IsSupervisorMove(cs[id], tasks[id], tasks, target, d)
    ensures TasksOk(cs, tasks[id := Move(tasks[id], target, d, at)], rec)
  {
    hide TaskOk, Move, IsSupervisorMove, KeepsPromises;
    MovedTaskIsOk(cs[id], tasks[id], rec[id], tasks, target, d, at);
    ReplacingKeepsTasksOk(cs, tasks, rec, rec, id, Move(tasks[id], target, d, at));
  }

  lemma MovedTaskIsOk(c: TaskContract, t: WorkflowTask, recoveries: nat, tasks: Tasks, target: Status, d: Details, at: Time)
    requires TaskOk(c, t, recoveries, tasks) && IsSupervisorMove(c, t, tasks, target, d)
    ensures TaskOk(c, Move(t, target, d, at), recoveries, tasks) && KeepsPromises(t.status, Move(t, target, d, at).status)
  {
    hide TaskValid, DependenciesDone;
    OutputsOnlyWhenCompleted(c, t, recoveries, tasks);
    MoveStaysValidIff(t, target, d, at);
  }

  lemma OutputsOnlyWhenCompleted(c: TaskContract, t: WorkflowTask, recoveries: nat, tasks: Tasks)
    requires TaskOk(c, t, recoveries, tasks) && t.status != Completed
    ensures t.outputs == []
  {
  }

  lemma RecoveryKeepsTasksOk(cs: Contracts, tasks: Tasks, rec: Recoveries, id: TaskId, at: Time, reason: string)
    requires TasksOk(cs, tasks, rec) && id in tasks && IsActive(tasks[id].status) && reason != ""
    ensures TasksOk(cs, tasks[id := RecoverToReady(tasks[id], at, reason)], rec[id := CutShort(tasks[id], rec[id])])
  {
    assert TaskOk(cs[id], tasks[id], rec[id], tasks);
    RecoveryStaysValid(tasks[id], at, reason);
    ReplacingKeepsTasksOk(cs, tasks, rec, rec[id := CutShort(tasks[id], rec[id])], id, RecoverToReady(tasks[id], at, reason));
  }

  // ----- Work left -----

  /** The rounds a task may still take part in. */
  function Outstanding(c: TaskContract, t: WorkflowTask): int {
    if IsTerminal(t.status) then 0 else c.maxAttempts - t.retryCount
  }

  function WorkLeft(order: seq<TaskId>, cs: Contracts, tasks: Tasks): int
    requires forall t | t in order :: t in cs && t in tasks
  {
    if order == [] then 0 else Outstanding(cs[order[0]], tasks[order[0]]) + WorkLeft(order[1..], cs, tasks)
  }

  lemma {:induction false} WorkLeftAfter(order: seq<TaskId>, cs: Contracts, tasks: Tasks, id: TaskId, t: WorkflowTask)
    requires Distinct(order) && id in tasks && forall k | k in order :: k in cs && k in tasks
    ensures id in order ==>
              WorkLeft(order, cs, tasks[id := t]) == WorkLeft(order, cs, tasks) - Outstanding(cs[id], tasks[id]) + Outstanding(cs[id], t)
    ensures id !in order ==> WorkLeft(order, cs, tasks[id := t]) == WorkLeft(order, cs, tasks)
  {
    if order != [] {
      assert order == [order[0]] + order[1..];
      WorkLeftAfter(order[1..], cs, tasks, id, t);
    }
  }

  lemma {:induction false} WorkLeftIsNat(order: seq<TaskId>, cs: Contracts, tasks: Tasks, rec: Recoveries)
    requires TasksOk(cs, tasks, rec) && forall k | k in order :: k in cs
    ensures WorkLeft(order, cs, tasks) >= 0
  {
    if order != [] {
      assert TaskOk(cs[order[0]], tasks[order[0]], rec[order[0]], tasks);
      WorkLeftIsNat(order[1..], cs, tasks, rec);
    }
  }

  function AttemptBudget(order: seq<TaskId>, cs: Contracts): nat
    requires forall t | t in order :: t in cs
  {
    if order == [] then 0 else cs[order[0]].maxAttempts + AttemptBudget(order[1..], cs)
  }

  /** Never more work is left than the attempts granted to all tasks together. */
  lemma {:induction false} WorkLeftWithinBudget(order: seq<TaskId>, cs: Contracts, tasks: Tasks, rec: Recoveries)
    requires TasksOk(cs, tasks, rec) && forall k | k in order :: k in cs
    ensures 0 <= WorkLeft(order, cs, tasks) <= AttemptBudget(order, cs)
  {
    if order != [] {
      assert TaskOk(cs[order[0]], tasks[order[0]], rec[order[0]], tasks);
      WorkLeftWithinBudget(order[1..], cs, tasks, rec);
    }
  }

  // ----- When nothing can advance -----

  /** The first task in scheduling order that has not ended. */
  lemma FirstOpen(p: Plan, tasks: Tasks) returns (k: nat)
    requires PlanValid(p) && tasks.Keys == p.contracts.Keys && !AllTerminal(tasks)
    ensures forall t | t in p.order :: t in tasks
    ensures IsFirstOpen(p, tasks, k)
  {
    var deps := AllDependencies(p.contracts);
    assert forall t :: t in p.order <==> t in deps;
    assert forall i | 0 <= i < |p.order| :: p.order[i] in p.order;
    var t :| t in tasks && !IsTerminal(tasks[t].status);
    assert t in p.order;
    k := 0;
    while IsTerminal(tasks[p.order[k]].status)
      invariant k < |p.order|
      invariant forall i | 0 <= i < k :: IsTerminal(tasks[p.order[i]].status)
      decreases |p.order| - k
    {
      assert exists i | k < i < |p.order| :: p.order[i] == t;
      k := k + 1;
    }
  }

  predicate IsFirstOpen(p: Plan, tasks: Tasks, k: nat)
    requires forall t | t in p.order :: t in tasks
  {
    && k < |p.order| && !IsTerminal(tasks[p.order[k]].status)
    && forall i | 0 <= i < k :: IsTerminal(tasks[p.order[i]].status)
  }

  lemma DependenciesHaveEnded(p: Plan, tasks: Tasks, k: nat)
    requires PlanValid(p) && tasks.Keys == p.contracts.Keys && (forall t | t in p.order :: t in tasks) && IsFirstOpen(p, tasks, k)
    ensures p.order[k] in p.contracts
    ensures var c := p.contracts[p.order[k]];
            forall d | d in c.dependencies || d in c.optionalDependencies :: d in tasks && IsTerminal(tasks[d].status)
  {
    var deps := AllDependencies(p.contracts);
    var c := p.contracts[p.order[k]];
    assert Graph.FollowsItsDependencies(deps, p.order, k);
    forall d | d in c.dependencies || d in c.optionalDependencies ensures d in tasks && IsTerminal(tasks[d].status) {
      assert d in deps[p.order[k]];
      assert d in p.order[..k];
      var i :| 0 <= i < k && p.order[i] == d;
      assert p.order[i] in p.order;
    }
  }

  lemma UnreadyBecause(c: TaskContract, tasks: Tasks)
    requires forall d | d in c.dependencies || d in c.optionalDependencies :: d in tasks && IsTerminal(tasks[d].status)
    requires !DependenciesDone(c, tasks)
    ensures HasFailedRequirement(c, tasks) || HasEscalatedOption(c, tasks)
  {
  }

  /** With no worker busy and nothing ready, the first open task either has a failed requirement,
      which propagation will act on, or an escalated option, which nothing ever will. */
  lemma NothingReadyMeans(p: Plan, tasks: Tasks, k: nat)
    requires PlanValid(p) && tasks.Keys == p.contracts.Keys && forall t | t in p.order :: t in tasks
    requires IsIdle(tasks) && NoneReady(tasks) && AllMarked(p.contracts, tasks) && IsFirstOpen(p, tasks, k)
    ensures p.order[k] in p.contracts
    ensures HasFailedRequirement(p.contracts[p.order[k]], tasks) || HasEscalatedOption(p.contracts[p.order[k]], tasks)
  {
    DependenciesHaveEnded(p, tasks, k);
    var t := p.order[k];
    assert t in p.order && !DependenciesDone(p.contracts[t], tasks);
    UnreadyBecause(p.contracts[t], tasks);
  }

  // ----- Gates and completion -----

  /** A gate is open exactly when its task is completed. */
  predicate GatesExact(p: Plan, gates: map<string, bool>, tasks: Tasks) {
    && gates.Keys == (set g | g in p.gates :: g.gateId)
    && forall g | g in p.gates :: g.taskId in tasks && (gates[g.gateId] <==> tasks[g.taskId].status == Completed)
  }

  /** `a` is required, directly or through others, by `t`. */
  ghost predicate IsRequiredChain(cs: Contracts, chain: seq<TaskId>) {
    && chain != []
    && chain[0] in cs
    && forall i | 0 < i < |chain| :: Requires(cs, chain, i)
  }

  ghost predicate Requires(cs: Contracts, chain: seq<TaskId>, i: nat)
    requires 0 < i < |chain|
  {
    chain[i - 1] in cs && chain[i] in cs && chain[i] in cs[chain[i - 1]].dependencies
  }

  lemma CompletedHasRequirements(c: TaskContract, t: WorkflowTask, recoveries: nat, tasks: Tasks)
    requires TaskOk(c, t, recoveries, tasks) && t.status == Completed
    ensures RequiredDone(c, tasks)
  {
    hide TaskValid, CountsOk;
  }

  /** A completed task stands on completed requirements all the way down. */
  lemma {:induction false} CompletedAllTheWay(cs: Contracts, tasks: Tasks, rec: Recoveries, chain: seq<TaskId>, i: nat)
    requires TasksOk(cs, tasks, rec) && IsRequiredChain(cs, chain) && i < |chain|
    requires tasks[chain[0]].status == Completed
    ensures chain[i] in tasks && tasks[chain[i]].status == Completed
  {
    hide TaskOk;
    if i > 0 {
      CompletedAllTheWay(cs, tasks, rec, chain, i - 1);
      var above := chain[i - 1];
      assert Requires(cs, chain, i);
      CompletedHasRequirements(cs[above], tasks[above], rec[above], tasks);
    }
  }
}
