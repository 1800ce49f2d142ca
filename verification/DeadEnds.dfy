/** Which failures propagate, which dead ends last, and runs that end in one. */
module DeadEnds {
  import opened Wrappers
  import opened Ordering
  import opened Scopes
  import opened Leases
  import opened Lifecycle
  import opened Workflow
  import opened Registry
  import opened Supervision
  import opened Waves
  import opened Supervisor
  import Graph

  // ----- Exactly what one propagation escalates -----

  /** `n` required dependencies away, through waiting tasks only, stands a task that failed. */
  ghost predicate FailsIn(cs: Contracts, tasks: Tasks, id: TaskId, n: nat)
    decreases n
  {
    && id in cs && id in tasks
    && if n == 0 then tasks[id].status in {Blocked, Escalated, Cancelled}
       else IsWaiting(tasks[id].status) && exists d | d in cs[id].dependencies :: FailsIn(cs, tasks, d, n - 1)
  }

  ghost predicate IsDoomed(cs: Contracts, tasks: Tasks, id: TaskId) {
    exists n: nat :: n >= 1 && FailsIn(cs, tasks, id, n)
  }

  lemma {:induction false} DoomedFails(p: Plan, before: Tasks, after: Tasks, id: TaskId, n: nat)
    requires OnlyFailed(p.contracts, before, after) && NothingToPropagate(p.contracts, after) && FailsIn(p.contracts, before, id, n)
    ensures id in after && after[id].status in {Blocked, Escalated, Cancelled}
    decreases n
  {
    hide HasFailedRequirement, IsEscalation;
    if n > 0 {
      var d :| d in p.contracts[id].dependencies && FailsIn(p.contracts, before, d, n - 1);
      DoomedFails(p, before, after, d, n - 1);
      FailedHere(p.contracts[id], after, d);
      if after[id] != before[id] {
        EscalatedStatus(before[id], after[id]);
      }
    }
  }

  lemma FailedHere(c: TaskContract, tasks: Tasks, d: TaskId)
    requires d in c.dependencies && d in tasks && tasks[d].status in {Blocked, Escalated, Cancelled}
    ensures HasFailedRequirement(c, tasks)
  {
  }

  lemma {:induction false} EscalatedWasDoomed(p: Plan, before: Tasks, after: Tasks, k: nat)
    requires PlanValid(p) && OnlyFailed(p.contracts, before, after) && k < |p.order|
    ensures p.order[k] in before
    ensures after[p.order[k]] != before[p.order[k]] ==> IsDoomed(p.contracts, before, p.order[k])
    decreases k
  {
    hide ContractValid, Graph.WellFormed, IsEscalation;
    var deps := AllDependencies(p.contracts);
    var t := p.order[k];
    assert t in p.order && t in deps;
    if after[t] != before[t] {
      assert Graph.FollowsItsDependencies(deps, p.order, k);
      var d :| d in p.contracts[t].dependencies && d in after && after[d].status in {Blocked, Escalated, Cancelled};
      assert d in deps[t];
      var i :| 0 <= i < k && p.order[i] == d;
      EscalatedWasDoomed(p, before, after, i);
      if after[d] == before[d] {
        assert FailsIn(p.contracts, before, d, 0);
        assert FailsIn(p.contracts, before, t, 1);
      } else {
        var n: nat :| n >= 1 && FailsIn(p.contracts, before, d, n);
        assert FailsIn(p.contracts, before, t, n + 1);
      }
    }
  }

  /** Propagation escalates exactly the waiting tasks from which required dependencies lead, through waiting tasks, to a failure. */
  lemma PropagationIff(p: Plan, before: Tasks, after: Tasks, id: TaskId)
    requires PlanValid(p) && OnlyFailed(p.contracts, before, after) && NothingToPropagate(p.contracts, after)
    requires id in before && IsWaiting(before[id].status)
    ensures after[id] != before[id] <==> IsDoomed(p.contracts, before, id)
    ensures after[id] == before[id] <==> !HasFailedRequirement(p.contracts[id], after)
  {
    hide ContractValid, Graph.WellFormed, IsEscalation, HasFailedRequirement;
    assert id in AllDependencies(p.contracts);
    var k :| 0 <= k < |p.order| && p.order[k] == id;
    EscalatedWasDoomed(p, before, after, k);
    if n: nat :| n >= 1 && FailsIn(p.contracts, before, id, n) {
      DoomedFails(p, before, after, id, n);
    }
  }

  // ----- A dependent of an escalated option -----

  /** It cannot have started. */
  lemma OptionForbidsStart(cs: Contracts, tasks: Tasks, rec: Recoveries, id: TaskId)
    requires TasksOk(cs, tasks, rec) && id in tasks && HasEscalatedOption(cs[id], tasks)
    ensures !HasStarted(tasks[id].status)
  {
    hide TaskValid, CountsOk;
    assert TaskOk(cs[id], tasks[id], rec[id], tasks);
  }

  lemma OptionStays(c: TaskContract, before: Tasks, after: Tasks)
    requires EndedStays(before, after) && HasEscalatedOption(c, before)
    ensures HasEscalatedOption(c, after)
  {
  }

  /** For ever: in every later state of any run, resumed or not, it is neither ready, nor busy, nor to be retried, nor completed. */
  lemma DeadEndIsForEver(cs: Contracts, before: Tasks, later: Tasks, rec: Recoveries, id: TaskId)
    requires EndedStays(before, later) && TasksOk(cs, later, rec)
    requires id in before && HasEscalatedOption(cs[id], before)
    ensures HasEscalatedOption(cs[id], later) && !HasStarted(later[id].status)
  {
    hide TasksOk, HasEscalatedOption;
    TaskIsOkKeys(cs, later, rec);
    OptionStays(cs[id], before, later);
    OptionForbidsStart(cs, later, rec, id);
  }

  lemma TaskIsOkKeys(cs: Contracts, tasks: Tasks, rec: Recoveries)
    requires TasksOk(cs, tasks, rec)
    ensures tasks.Keys == cs.Keys
  {
  }

  /** A whole pass of the loop, with whatever wave it forms, leaves it untouched; what is propagated then escalates it
      if and only if it has a failed requirement. */
  lemma DeadEndIff(p: Plan, agents: seq<AgentDefinition>, before: Tasks, pass: Pass, after: Tasks, rec: Recoveries, id: TaskId)
    requires PlanValid(p) && TasksOk(p.contracts, before, rec) && TasksOk(p.contracts, pass.marked, rec)
    requires IsPass(p, agents, before, pass)
    requires OnlyFailed(p.contracts, pass.leased, after) && NothingToPropagate(p.contracts, after)
    requires id in before && IsWaiting(before[id].status) && HasEscalatedOption(p.contracts[id], before)
    ensures pass.leased[id] == before[id]
    ensures after[id] == before[id] <==> !HasFailedRequirement(p.contracts[id], after)
    ensures after[id] == before[id] <==> !IsDoomed(p.contracts, pass.leased, id)
  {
    hide PlanValid, TasksOk, WaveOk, Explained, IsStarted, IsEscalation, HasEscalatedOption, HasFailedRequirement, InWave, OnlyFailed,
      NothingToPropagate, OnlyLeased, AllMarked;
    TaskIsOkKeys(p.contracts, before, rec);
    OptionForbidsStart(p.contracts, before, rec, id);
    MarkingKeepsEnded(before, pass.marked);
    OptionStays(p.contracts[id], before, pass.marked);
    OptionForbidsStart(p.contracts, pass.marked, rec, id);
    assert pass.marked[id] == before[id];
    assert pass.skipped[id] == before[id];
    LeasedTask(pass.skipped, pass.leased, pass.wave.work, pass.wave.overBudget, id);
    LeasingKeepsKeys(pass.skipped, pass.leased, pass.wave.work, pass.wave.overBudget);
    PropagationIff(p, pass.leased, after, id);
  }

  lemma MarkingKeepsEnded(before: Tasks, after: Tasks)
    requires OnlyMarked(before, after)
    ensures EndedStays(before, after)
  {
    hide Move;
  }

  lemma LeasingKeepsKeys(before: Tasks, after: Tasks, work: seq<Work>, overBudget: set<TaskId>)
    requires OnlyLeased(before, after, work, overBudget)
    ensures before.Keys == after.Keys
  {
  }

  // ----- When a budget escalation ends the run -----

  /** After a pass that leased nothing, nothing is left to propagate exactly when no task that still waits has a failed
      requirement or requires a task just escalated over budget. */
  lemma NothingLeftIff(cs: Contracts, before: Tasks, after: Tasks, overBudget: set<TaskId>)
    requires before.Keys == cs.Keys && OnlyLeased(before, after, [], overBudget)
    ensures NothingToPropagate(cs, after) <==>
            forall t | t in before && IsWaiting(before[t].status) && t !in overBudget ::
              !HasFailedRequirement(cs[t], before) && !RequiresAny(cs[t], overBudget)
  {
    hide IsEscalation, IsStarted;
    forall t | t in before
      ensures after[t].status in {Blocked, Escalated, Cancelled} <==> t in overBudget || before[t].status in {Blocked, Escalated, Cancelled}
      ensures t !in overBudget ==> after[t] == before[t]
      ensures t in overBudget ==> after[t].status == Escalated
    {
      LeasedTask(before, after, [], overBudget, t);
    }
    forall t | t in before ensures HasFailedRequirement(cs[t], after) <==> HasFailedRequirement(cs[t], before) || RequiresAny(cs[t], overBudget) {
      FailureAfterLeasing(cs[t], before, after, overBudget);
    }
  }

  predicate RequiresAny(c: TaskContract, ids: set<TaskId>) {
    exists d | d in c.dependencies :: d in ids
  }

  lemma FailureAfterLeasing(c: TaskContract, before: Tasks, after: Tasks, overBudget: set<TaskId>)
    requires before.Keys == after.Keys && overBudget <= before.Keys
    requires forall t | t in before ::
               after[t].status in {Blocked, Escalated, Cancelled} <==> t in overBudget || before[t].status in {Blocked, Escalated, Cancelled}
    ensures HasFailedRequirement(c, after) <==> HasFailedRequirement(c, before) || RequiresAny(c, overBudget)
  {
    if d :| d in c.dependencies && d in after && after[d].status in {Blocked, Escalated, Cancelled} {
      assert d in overBudget || before[d].status in {Blocked, Escalated, Cancelled};
    }
    if d :| d in c.dependencies && d in before && before[d].status in {Blocked, Escalated, Cancelled} {
      assert after[d].status in {Blocked, Escalated, Cancelled};
    }
    if d :| d in c.dependencies && d in overBudget {
      assert after[d].status in {Blocked, Escalated, Cancelled};
    }
  }

  // ----- Runs that show it -----

  /** The only task that can start: nothing comes before it, it has one attempt, and it passes gate "g". */
  function JobA(): TaskContract {
    TaskContract("a", "data", "build", Some("g"), [], [], false, [Scope(["a"], false)], 1, false)
  }

  /** Names "a" as an optional dependency. */
  function JobB(): TaskContract {
    TaskContract("b", "data", "build", None, [], ["a"], false, [Scope(["b"], false)], 1, false)
  }

  function OneTask(): Plan {
    Plan("one", [JobA()], [Gate("g", "a")], "a", 1, map["a" := JobA()], ["a"])
  }

  function TwoTasks(): Plan {
    Plan("two", [JobA(), JobB()], [Gate("g", "a")], "b", 1, map["a" := JobA(), "b" := JobB()], ["a", "b"])
  }

  function Builder(): AgentDefinition {
    AgentDefinition("builder", SpecialistKind, "data", true, ["build"], [Scope(["a"], false), Scope(["b"], false)])
  }

  function Agents(): seq<AgentDefinition> {
    [AgentDefinition("lead", SupervisorKind, "supervisor", true, ["planning"], [Scope(["plan"], true)]), Builder()]
  }

  lemma AgentsAreValid()
    ensures RegistryValid(Agents()) && AllNamed(Agents()) && Builder() in Agents()
  {
    assert IsComponent("a") && IsComponent("b") && IsComponent("plan");
    assert Agents()[0].kind == SupervisorKind && Agents()[0] in Agents() && Agents()[1] == Builder();
    assert Scope(["a"], false).parts[0] != Scope(["b"], false).parts[0];
  }

  lemma OneTaskIsValid()
    ensures PlanValid(OneTask())
  {
    var p := OneTask();
    var deps := AllDependencies(p.contracts);
    assert deps == map["a" := []];
    assert p.order[..0] == [];
    assert Graph.FollowsItsDependencies(deps, p.order, 0);
    assert p.tasks[0] in p.tasks;
  }

  lemma TwoInOrder(deps: Graph.Dependencies)
    requires deps == map["a" := [], "b" := ["a"]]
    ensures Graph.WellFormed(deps) && Graph.IsTopological(deps, ["a", "b"])
  {
    var order: seq<TaskId> := ["a", "b"];
    assert order[..0] == [] && order[..1] == ["a"];
    assert Graph.FollowsItsDependencies(deps, order, 0) && Graph.FollowsItsDependencies(deps, order, 1);
  }

  lemma TwoTasksAreOrdered()
    ensures var deps := AllDependencies(TwoTasks().contracts); Graph.WellFormed(deps) && Graph.IsTopological(deps, TwoTasks().order)
  {
    hide Graph.WellFormed, Graph.IsTopological;
    var deps := AllDependencies(TwoTasks().contracts);
    assert deps["a"] == [] && deps["b"] == ["a"];
    assert deps == map["a" := [], "b" := ["a"]];
    TwoInOrder(deps);
  }

  lemma TwoTasksAreValid()
    ensures PlanValid(TwoTasks())
  {
    hide Graph.WellFormed, Graph.IsTopological, AllDependencies;
    var p := TwoTasks();
    TwoTasksAreOrdered();
    assert p.tasks[0] in p.tasks && p.tasks[1] in p.tasks;
  }

  /** The builder may take either task. */
  lemma BuilderTakes(c: TaskContract)
    requires c == JobA() || c == JobB()
    ensures IsCandidate(Builder(), c.owner, c.taskType, {}, c.files) && HasCandidate(Agents(), c, {})
  {
    hide PathIsAllowed, Join, RegistryValid;
    AgentsAreValid();
    var a, path := Builder(), [c.taskId];
    assert IsComponent("a") && IsComponent("b");
    assert a.allowed[0] in a.allowed && a.allowed[1] in a.allowed;
    assert Covers(Scope(path, false), path);
    AllowedIffCovered(path, a.allowed);
    assert c.files[1..] == [];
    assert CheckPaths(a, c.files[1..]) == AllAllowed;
  }

  ghost predicate IsExample(p: Plan) {
    p == OneTask() || p == TwoTasks()
  }

  lemma ExampleIsValid(p: Plan)
    requires IsExample(p)
    ensures PlanValid(p) && "a" in p.contracts && p.contracts["a"] == JobA() && p.maxWorkers == 1
    ensures forall t | t in p.contracts :: t == "a" || (t == "b" && p.contracts[t] == JobB())
  {
    hide PlanValid;
    OneTaskIsValid();
    TwoTasksAreValid();
  }

  /** What the invariants say of a state between two passes, or while "a" runs. */
  ghost predicate Holds(p: Plan, s: WorkflowState, rec: Recoveries, now: Time) {
    SoundState(p, s, rec, now) && GatesExact(p, s.gates, s.tasks) && s.updatedAt == now && s.tasks.Keys == p.contracts.Keys && "a" in s.tasks
  }

  /** One more recorded move of "a", all at the same instant. */
  function Moved(s: WorkflowState, target: Status, d: Details, now: Time): WorkflowState
    requires "a" in s.tasks
  {
    MovedState(s, "a", target, d, now, now)
  }

  lemma MovingA(p: Plan, s: WorkflowState, rec: Recoveries, now: Time, target: Status, d: Details)
    requires PlanValid(p) && p.contracts.Keys >= {"a"} && p.contracts["a"] == JobA() && Holds(p, s, rec, now)
    requires IsSupervisorMove(JobA(), s.tasks["a"], s.tasks, target, d) && s.tasks["a"].status != Completed && target != Completed
    ensures Holds(p, Moved(s, target, d, now), rec, now)
    ensures Moved(s, target, d, now).tasks == s.tasks["a" := Move(s.tasks["a"], target, d, now)]
  {
    hide PlanValid, SoundState, IsSupervisorMove, EnteredMessage, JobA;
    MovedStateIsSound(p, s, rec, now, "a", target, d, now, now);
    GatesStayExact(p, s.gates, s.tasks, Moved(s, target, d, now).tasks);
  }

  // --- The first pass marks "a" ---

  function Marked(p: Plan, at: Time): WorkflowState
    requires "a" in p.contracts
  {
    Moved(InitialState(p, at), Ready, PLAIN, at)
  }

  lemma MarkingA(p: Plan, at: Time)
    requires IsExample(p)
    ensures "a" in p.contracts
    ensures var begin, marked := InitialState(p, at), Marked(p, at);
            && Holds(p, begin, NoRecoveries(p), at) && IsIdle(begin.tasks)
            && Holds(p, marked, NoRecoveries(p), at) && IsIdle(marked.tasks)
            && marked.tasks == begin.tasks["a" := Move(InitialTask(JobA(), at), Ready, PLAIN, at)]
            && OnlyMarked(begin.tasks, marked.tasks) && AllMarked(p.contracts, marked.tasks) && WaveIds(p, ["a"], marked.tasks)
  {
    hide PlanValid, SoundState, GatesExact, MovedState, IsSupervisorMove, OnlyMarked, AllMarked, WaveIds, Move, JobA, JobB, IsExample, IsIdle;
    ExampleIsValid(p);
    var begin := InitialState(p, at);
    InitialStateIsSound(p, at);
    FirstMarking(p, at);
    MovingA(p, begin, NoRecoveries(p), at, Ready, PLAIN);
  }

  lemma FirstMarking(p: Plan, at: Time)
    requires p.contracts.Keys >= {"a"} && p.contracts["a"] == JobA()
    requires forall t | t in p.contracts :: t == "a" || (t == "b" && p.contracts[t] == JobB())
    ensures var begin := InitialTasks(p.contracts, at);
            var marked := begin["a" := Move(InitialTask(JobA(), at), Ready, PLAIN, at)];
            && IsSupervisorMove(JobA(), begin["a"], begin, Ready, PLAIN) && begin["a"].status == Pending
            && OnlyMarked(begin, marked) && AllMarked(p.contracts, marked) && WaveIds(p, ["a"], marked) && IsIdle(marked)
  {
    var begin := InitialTasks(p.contracts, at);
    MarkingIsAllowed(JobA(), begin["a"], begin);
    assert "b" in p.contracts ==> "a" in JobB().optionalDependencies;
  }

  // --- It is leased and started ---

  function LeaseA(at: Time): PathLease {
    NewLease(RequestFor(JobA(), "builder"), at, 1)
  }

  function Started(s: WorkflowState, at: Time): WorkflowState
    requires "a" in s.tasks
  {
    Moved(Moved(s, Leased, PLAIN.(lease := Some(LeaseOf(LeaseA(at)))), at), Running, PLAIN, at)
  }

  function WorkA(attempt: nat, at: Time): Work {
    Work(JobA(), "builder", LeaseA(at), attempt)
  }

  function TableA(at: Time): LeaseTable {
    map[LeaseA(at).leaseId := LeaseA(at)]
  }

  lemma GrantingA(at: Time, attempt: nat)
    ensures GrantedOne(WorkA(attempt, at), map[], TableA(at), at, at)
    ensures AcquireSpec(LeaseState(map[], 0, 1), RequestFor(JobA(), "builder"), at).0 == Granted(LeaseA(at))
    ensures GivenToCandidate(Agents(), WorkA(attempt, at))
  {
    hide Canonical, IsCandidate;
    EmptyTableGrants(LeaseState(map[], 0, 1), RequestFor(JobA(), "builder"), at);
    assert LiveAt(map[], at) == map[];
    BuilderTakes(JobA());
    AgentsAreValid();
    CandidateIsGiven(Agents(), Builder(), WorkA(attempt, at), {});
  }

  lemma StartingState(p: Plan, s: WorkflowState, rec: Recoveries, at: Time)
    requires PlanValid(p) && p.contracts.Keys >= {"a"} && p.contracts["a"] == JobA() && Holds(p, s, rec, at) && s.tasks["a"].status == Ready
    ensures Holds(p, Started(s, at), rec, at)
    ensures Started(s, at).tasks == s.tasks["a" := StartedTask(s.tasks["a"], LeaseOf(LeaseA(at)), at)]
  {
    hide PlanValid, SoundState, MovedState, IsSupervisorMove, StartedTask, JobA, LeaseA, Move, LeaseOf, GatesExact;
    var lease := LeaseOf(LeaseA(at));
    LeaseIsTimely(at);
    var leased := Moved(s, Leased, PLAIN.(lease := Some(lease)), at);
    LeasingIsAllowed(JobA(), s.tasks["a"], s.tasks, s.tasks, lease, at);
    MovingA(p, s, rec, at, Leased, PLAIN.(lease := Some(lease)));
    LeasingIsAllowed(JobA(), s.tasks["a"], s.tasks, leased.tasks, lease, at);
    MoveTarget(s.tasks["a"], Leased, PLAIN.(lease := Some(lease)), at);
    MovingA(p, leased, rec, at, Running, PLAIN);
    StartIsTwoMoves(s.tasks["a"], lease, at, at);
  }

  /** A pass in which the supervisor leases "a" to the builder and starts it, as its methods promise to. */
  ghost predicate PassStartsA(p: Plan, first: Tasks, before: Tasks, after: Tasks, attempt: nat, at: Time) {
    var r := Scheduled(WorkA(attempt, at));
    && LeasedOne(Agents(), JobA(), {}, p.maxWorkers, r, before, after, map[], TableA(at), at, at)
    && IsPass(p, Agents(), first, Pass(before, before, after, WithAttempt(EMPTY_WAVE, "a", r)))
  }

  /** With only "a" ready, a pass can be of that kind. */
  lemma StartingA(p: Plan, before: Tasks, s: WorkflowState, rec: Recoveries, at: Time)
    requires IsExample(p) && Holds(p, s, rec, at) && IsIdle(s.tasks) && WaveIds(p, ["a"], s.tasks)
    requires OnlyMarked(before, s.tasks) && AllMarked(p.contracts, s.tasks)
    ensures var started := Started(s, at);
            && Holds(p, started, rec, at) && CheckpointOk(p, started, rec)
            && started.tasks == s.tasks["a" := StartedTask(s.tasks["a"], LeaseOf(LeaseA(at)), at)]
            && PassStartsA(p, before, s.tasks, started.tasks, s.tasks["a"].attemptCount + 1, at)
  {
    hide PlanValid, SoundState, GatesExact, Moved, IsIdle, WaveIds, GivenToCandidate, GrantedOne, OnlyMarked, AllMarked, AllTried, WithAttempt,
      IsRestful, IsPass, StartedTask, JobA, LeaseA, IsExample, LeaseOf, Started, IsStarted, Agents, TableA;
    ExampleIsValid(p);
    ReadyA(p, s.tasks);
    StartingState(p, s, rec, at);
    var w := WorkA(s.tasks["a"].attemptCount + 1, at);
    StartIsStart(s.tasks["a"], w, at);
    GrantingA(at, w.attempt);
    JobAIsA();
    PassOfOne(p, s.gates, before, s.tasks, Started(s, at).tasks, TableA(at), at, Scheduled(w));
  }

  lemma JobAIsA()
    ensures JobA().taskId == "a"
  {
  }

  lemma MoveTarget(t: WorkflowTask, target: Status, d: Details, at: Time)
    ensures Move(t, target, d, at).status == target
  {
  }

  lemma LeaseIsTimely(at: Time)
    ensures LeaseOf(LeaseA(at)).acquiredAt < LeaseOf(LeaseA(at)).expiresAt
  {
    hide Canonical;
  }

  lemma StartIsStart(t: WorkflowTask, w: Work, at: Time)
    requires t.status == Ready && w == WorkA(t.attemptCount + 1, at)
    ensures IsStarted(t, StartedTask(t, LeaseOf(LeaseA(at)), at), w)
  {
    hide LeaseA, JobA;
  }

  lemma ReadyA(p: Plan, tasks: Tasks)
    requires WaveIds(p, ["a"], tasks)
    ensures "a" in tasks && tasks["a"].status == Ready && tasks.Keys == p.contracts.Keys
  {
    assert "a" in ["a"];
  }

  /** A pass that tries "a" alone. */
  lemma PassOfOne(p: Plan, gates: map<string, bool>, first: Tasks, before: Tasks, after: Tasks, table: LeaseTable, at: Time, r: LeaseAttempt)
    requires PlanValid(p) && GatesExact(p, gates, before) && IsIdle(before) && WaveIds(p, ["a"], before)
    requires OnlyMarked(first, before) && AllMarked(p.contracts, before) && "a" in p.contracts && p.contracts["a"] == JobA()
    requires LeasedOne(Agents(), JobA(), {}, p.maxWorkers, r, before, after, map[], table, at, at) && !r.NotAuthorised?
    ensures IsRestful(after)
    ensures IsPass(p, Agents(), first, Pass(before, before, after, WithAttempt(EMPTY_WAVE, "a", r)))
    ensures AllTried(Pass(before, before, after, WithAttempt(EMPTY_WAVE, "a", r)))
  {
    hide PlanValid, GatesExact, IsIdle, WaveIds, LeasedOne, IsRestful, Forming, OnlyMarked, AllMarked, IsPass, AllTried, Agents, WithAttempt;
    var f, ids := WithAttempt(EMPTY_WAVE, "a", r), ["a"];
    SoundWorkersOf(p);
    StartForming(p, Agents(), ids, before, at);
    TryOne(p, Agents(), ids, 0, before, before, after, map[], table, at, at, EMPTY_WAVE, r);
    FormedWave(p, Agents(), gates, ids, 1, before, after, table, at, f);
    ReadyA(p, before);
    NothingSkipped(p.contracts, before);
    PassFormed(p, Agents(), ids, 1, first, before, before, after, table, at, f);
  }

  lemma NothingSkipped(cs: Contracts, tasks: Tasks)
    requires tasks.Keys == cs.Keys
    ensures OnlySkipped(cs, tasks, tasks)
  {
  }

  lemma SoundWorkersOf(p: Plan)
    requires PlanValid(p)
    ensures p.maxWorkers >= 1
  {
  }

  // --- A task escalates ---

  function Ended(s: WorkflowState, error: string, category: FailureCategory, at: Time): WorkflowState
    requires "a" in s.tasks
  {
    Moved(Moved(s, Blocked, BlockingDetails(error, category), at), Escalated, FailureDetails(error, category), at)
  }

  lemma EndingA(p: Plan, s: WorkflowState, rec: Recoveries, at: Time, error: string, category: FailureCategory)
    requires PlanValid(p) && p.contracts.Keys >= {"a"} && p.contracts["a"] == JobA() && Holds(p, s, rec, at)
    requires MayEscalate(s.tasks["a"].status) && error != ""
    ensures Holds(p, Ended(s, error, category, at), rec, at)
    ensures Ended(s, error, category, at).tasks == s.tasks["a" := Escalate(s.tasks["a"], error, category, at)]
  {
    hide PlanValid, SoundState, MovedState, IsSupervisorMove, JobA, Move, GatesExact, Escalate, BlockingDetails, FailureDetails;
    var d := BlockingDetails(error, category);
    var blocked := Moved(s, Blocked, d, at);
    EscalationIsAllowed(JobA(), s.tasks["a"], s.tasks, s.tasks, error, category, at);
    MovingA(p, s, rec, at, Blocked, d);
    EscalationIsAllowed(JobA(), s.tasks["a"], s.tasks, blocked.tasks, error, category, at);
    MoveTarget(s.tasks["a"], Blocked, d, at);
    MovingA(p, blocked, rec, at, Escalated, FailureDetails(error, category));
    EscalationIsTwoMoves(s.tasks["a"], error, category, at, at);
  }

  // --- A budget escalation that ends the workflow ---

  function OverBudgetA(at: Time): WorkflowState {
    Ended(Marked(OneTask(), at), OverBudgetMessage(), BudgetExceeded, at)
  }

  lemma DecliningA(before: Tasks, after: Tasks, at: Time)
    requires "a" in before && before["a"].status == Ready
    requires after == before["a" := Escalate(before["a"], OverBudgetMessage(), BudgetExceeded, at)]
    ensures LeasedOne(Agents(), JobA(), {}, 1, OverBudget, before, after, map[], map[], at, at)
  {
    hide HasCandidate, Agents, Escalate, OverBudgetMessage, IsEscalation;
    EscalateIsEscalation(before["a"], OverBudgetMessage(), BudgetExceeded, at);
    BuilderTakes(JobA());
  }

  lemma OnlyOneOverBudget(before: Tasks, s: WorkflowState, at: Time)
    requires before.Keys == {"a"} && before["a"].status == Ready
    requires s.tasks == before["a" := Escalate(before["a"], OverBudgetMessage(), BudgetExceeded, at)]
    ensures OnlyLeased(before, s.tasks, [], {"a"}) && NoneWaitingForWork(before, {}, {"a"}) && IsIdle(s.tasks)
    ensures !AllTerminal(before) && AllTerminal(s.tasks) && NothingToPropagate(OneTask().contracts, s.tasks)
    ensures !IsComplete(OneTask(), s) && NoAgentFor(OneTask(), Agents(), {})
  {
    hide OverBudgetMessage, Agents, JobA;
    EscalateIsEscalation(before["a"], OverBudgetMessage(), BudgetExceeded, at);
    assert OneTask().finalTask == "a" && s.tasks["a"].status == Escalated;
  }

  function StalledWave(): WaveSoFar {
    WithAttempt(EMPTY_WAVE, "a", OverBudget)
  }

  /** The first pass over the one task, its budget declined: the task is leased to nobody and escalates, everything has
      ended, nothing is left to propagate, and the workflow is not complete. */
  lemma BudgetStallIsReached(at: Time)
    ensures RegistryValid(Agents()) && AllNamed(Agents()) && PlanValid(OneTask())
    ensures var p, agents := OneTask(), Agents();
            var begin, marked, ended := InitialState(p, at), Marked(p, at), OverBudgetA(at);
            && Holds(p, begin, NoRecoveries(p), at) && CheckpointOk(p, begin, NoRecoveries(p))
            && Holds(p, marked, NoRecoveries(p), at) && IsIdle(marked.tasks) && AllMarked(p.contracts, marked.tasks) && !AllTerminal(marked.tasks)
            && LeasedOne(agents, JobA(), {}, 1, OverBudget, marked.tasks, ended.tasks, map[], map[], at, at)
            && IsPass(p, agents, begin.tasks, Pass(marked.tasks, marked.tasks, ended.tasks, StalledWave()))
            && OnlyLeased(marked.tasks, ended.tasks, [], {"a"}) && NoneWaitingForWork(marked.tasks, {}, {"a"}) && NoAgentFor(p, agents, {})
            && Holds(p, ended, NoRecoveries(p), at) && IsIdle(ended.tasks)
            && AllTerminal(ended.tasks) && NothingToPropagate(p.contracts, ended.tasks) && !IsComplete(p, ended)
            && IsStalled(p, agents, ended.tasks, {}, {"a"})
  {
    hide PlanValid, SoundState, GatesExact, Moved, OnlyMarked, AllMarked, WaveIds, JobA, IsStalled, IsPass, RegistryValid, Escalate, IsIdle,
      LeasedOne, AllTerminal, NothingToPropagate, IsComplete, OverBudgetMessage, Ended, Marked, InitialTask, Move, IsRestful, NoneWaitingForWork,
      OnlyLeased, NoAgentFor, AllNamed, Agents, NoRecoveries, AllTried;
    var p, agents := OneTask(), Agents();
    OneTaskIsValid();
    AgentsAreValid();
    MarkingA(p, at);
    var begin, marked := InitialState(p, at), Marked(p, at);
    IdleIsRestful(begin.tasks);
    ReadyA(p, marked.tasks);
    EndingA(p, marked, NoRecoveries(p), at, OverBudgetMessage(), BudgetExceeded);
    var ended := OverBudgetA(at);
    DecliningA(marked.tasks, ended.tasks, at);
    PassOfOne(p, marked.gates, begin.tasks, marked.tasks, ended.tasks, map[], at, OverBudget);
    OnlyOneOverBudget(marked.tasks, ended, at);
    GivingUpMeansStalled(p, agents, marked.tasks, ended.tasks, {}, {"a"});
  }

  /** The supervisor in that state raises the no-progress error although everything has ended. */
  method BudgetStallExample(at: Time) returns (s: Supervisor, r: RoundResult)
    ensures s.plan == OneTask() && s.agents == Agents() && r == Stopped(NoProgress({}, {"a"}))
    ensures s.Sound() && s.state.tasks == OverBudgetA(at).tasks && AllTerminal(s.state.tasks)
  {
    hide PlanValid, SoundState, GatesExact, OnlyMarked, AllMarked, WaveIds, JobA, IsStalled, IsPass, IsIdle, RegistryValid, Agents,
      LeasedOne, AllTerminal, NothingToPropagate, IsComplete, NoneWaitingForWork, OnlyLeased, NoAgentFor, AllNamed, OverBudgetA, IsRestful,
      NoRecoveries, Marked, InitialState, CheckpointOk, EndedStays, OnlyFailed, Left;
    BudgetStallIsReached(at);
    WorkersBounded(OneTask());
    var begin := InitialState(OneTask(), at);
    s := new Supervisor(OneTask(), Agents(), OverBudgetA(at), Some(begin), at, NoRecoveries(OneTask()));
    r := s.WithoutWave(EMPTY_WAVE.(overBudget := {"a"}), false, Marked(OneTask(), at).tasks);
  }

  // --- An option that escalates after an attempt ---

  function RunningA(p: Plan, at: Time): (r: WorkflowState)
    requires "a" in p.contracts
    ensures "a" in r.tasks
  {
    Started(Marked(p, at), at)
  }

  function RejectedA(at: Time): WorkflowState {
    Ended(Moved(RunningA(TwoTasks(), at), Validating, PLAIN, at), "rejected", ValidationFailure, at)
  }

  const REJECTION: Verdict := Rejected("rejected", ValidationFailure, false)

  lemma RejectingA(p: Plan, s: WorkflowState, rec: Recoveries, at: Time)
    requires PlanValid(p) && p.contracts.Keys >= {"a"} && p.contracts["a"] == JobA() && Holds(p, s, rec, at) && s.tasks["a"].status == Running
    ensures var ended := Ended(Moved(s, Validating, PLAIN, at), "rejected", ValidationFailure, at);
            Holds(p, ended, rec, at) && ended.tasks == s.tasks["a" := AppliedTask(JobA(), s.tasks["a"], REJECTION, at)]
  {
    hide PlanValid, SoundState, Moved, IsSupervisorMove, JobA, Move, GatesExact, Escalate, AppliedTask, Ended;
    ValidatingIsAllowed(JobA(), s.tasks["a"], s.tasks);
    MovingA(p, s, rec, at, Validating, PLAIN);
    MoveTarget(s.tasks["a"], Validating, PLAIN, at);
    EndingA(p, Moved(s, Validating, PLAIN, at), rec, at, "rejected", ValidationFailure);
    RejectionIsTwoMoves(JobA(), s.tasks["a"], "rejected", ValidationFailure, false, at, at);
  }

  /** The first pass over the two tasks leases "a" and starts its one attempt; the worker's answer is rejected for good, and "a"
      escalates. "b" names it as an option and is still pending. */
  lemma DeadEndIsReached(at: Time)
    ensures RegistryValid(Agents()) && AllNamed(Agents()) && PlanValid(TwoTasks()) && HasCandidate(Agents(), JobB(), {})
    ensures var p, started, ended := TwoTasks(), RunningA(TwoTasks(), at), RejectedA(at);
            && PassStartsA(p, InitialState(p, at).tasks, Marked(p, at).tasks, started.tasks, 1, at)
            && "a" in started.tasks && ended.tasks == started.tasks["a" := AppliedTask(JobA(), started.tasks["a"], REJECTION, at)]
            && Holds(p, ended, NoRecoveries(p), at) && IsIdle(ended.tasks)
            && ended.tasks["a"].status == Escalated && ended.tasks["a"].attemptCount == 1
            && "b" in ended.tasks && ended.tasks["b"].status == Pending && HasEscalatedOption(JobB(), ended.tasks)
  {
    hide PlanValid, SoundState, GatesExact, Moved, OnlyMarked, AllMarked, WaveIds, JobA, RegistryValid, IsIdle, Ended, Marked, PassStartsA,
      Started, StartedTask, InitialTask, AllNamed, Agents, NoRecoveries, AppliedTask, LeaseA, HasCandidate, CheckpointOk, InitialTasks,
      JobB, HasEscalatedOption, Move, LeaseOf;
    var p := TwoTasks();
    TwoTasksAreValid();
    AgentsAreValid();
    BuilderTakes(JobB());
    MarkingA(p, at);
    var begin, marked, started := InitialState(p, at), Marked(p, at), RunningA(p, at);
    MarkedFresh(at);
    StartingA(p, begin.tasks, marked, NoRecoveries(p), at);
    StartedOnce(marked.tasks["a"], LeaseOf(LeaseA(at)), at);
    RejectingA(p, started, NoRecoveries(p), at);
    assert RejectedA(at).tasks == begin.tasks["a" := AppliedTask(JobA(), started.tasks["a"], REJECTION, at)];
    OptionLeft(begin.tasks, started.tasks["a"], at);
  }

  lemma MarkedFresh(at: Time)
    ensures var t := Move(InitialTask(JobA(), at), Ready, PLAIN, at); t.status == Ready && t.attemptCount == 0
    ensures TwoTasks().contracts.Keys == {"a", "b"} && TwoTasks().contracts["a"] == JobA()
  {
  }

  lemma StartedOnce(t: WorkflowTask, lease: TaskLease, at: Time)
    ensures StartedTask(t, lease, at).attemptCount == t.attemptCount + 1 && StartedTask(t, lease, at).status == Running
  {
  }

  lemma OptionLeft(begin: Tasks, t: WorkflowTask, at: Time)
    requires begin == InitialTasks(TwoTasks().contracts, at)
    ensures var ended := begin["a" := AppliedTask(JobA(), t, REJECTION, at)];
            && ended["a"].status == Escalated && ended["a"].attemptCount == t.attemptCount && IsIdle(ended)
            && ended["b"].status == Pending && HasEscalatedOption(JobB(), ended)
  {
    assert "a" in JobB().optionalDependencies;
  }

  /** With "a" escalated and "b" open, no task is ready. */
  lemma NoneIsReady(tasks: Tasks, rec: Recoveries)
    requires TasksOk(TwoTasks().contracts, tasks, rec) && "a" in tasks && tasks["a"].status == Escalated
    ensures tasks.Keys == {"a", "b"} && HasEscalatedOption(JobB(), tasks) && forall t | t in tasks :: tasks[t].status != Ready
  {
    hide TasksOk;
    TaskIsOkKeys(TwoTasks().contracts, tasks, rec);
    assert TwoTasks().contracts["b"] == JobB() && "a" in JobB().optionalDependencies;
    OptionForbidsStart(TwoTasks().contracts, tasks, rec, "b");
  }

  lemma MarkingLeavesEnded(before: Tasks, after: Tasks, id: TaskId)
    requires OnlyMarked(before, after) && id in before
    ensures id in after && (after[id] != before[id] ==> after[id].status == Ready) && (IsTerminal(before[id].status) ==> after[id] == before[id])
  {
  }

  /** So a whole pass changes nothing, forms no wave, and has nothing to propagate. */
  lemma PassDoesNothing(agents: seq<AgentDefinition>, before: Tasks, pass: Pass, rec: Recoveries)
    requires IsPass(TwoTasks(), agents, before, pass) && TasksOk(TwoTasks().contracts, pass.marked, rec)
    requires "a" in before && before["a"].status == Escalated
    ensures pass.marked == pass.skipped == pass.leased == before && pass.wave.work == [] && pass.wave.overBudget == {}
    ensures NothingToPropagate(TwoTasks().contracts, before)
  {
    hide TasksOk, OnlyMarked, AllMarked, WaveOk, Explained, IsStarted, IsEscalation, InWave, JobA, JobB, HasEscalatedOption, TwoTasks;
    MarkingLeavesEnded(before, pass.marked, "a");
    NoneIsReady(pass.marked, rec);
    forall t | t in before ensures t in pass.marked && pass.marked[t] == before[t] {
      MarkingLeavesEnded(before, pass.marked, t);
    }
    OnlyMarkedKeys(before, pass.marked);
    assert pass.skipped == pass.marked;
    NobodyLeased(pass.skipped, pass.leased, pass.wave.work, pass.wave.overBudget);
    NothingRequired(before);
  }

  lemma FirstIsListed(work: seq<Work>)
    requires work != []
    ensures work[0] in work
  {
  }

  lemma NobodyLeased(before: Tasks, after: Tasks, work: seq<Work>, overBudget: set<TaskId>)
    requires OnlyLeased(before, after, work, overBudget) && forall t | t in before :: before[t].status != Ready
    ensures work == [] && overBudget == {} && after == before
  {
    hide IsEscalation, StartedTask;
    if work != [] {
      FirstIsListed(work);
      assert false;
    }
  }

  lemma NothingRequired(tasks: Tasks)
    ensures NothingToPropagate(TwoTasks().contracts, tasks)
  {
    assert forall t | t in TwoTasks().contracts :: TwoTasks().contracts[t].dependencies == [];
  }

  lemma NobodyWaits(agents: seq<AgentDefinition>, tasks: Tasks, noAgent: set<TaskId>, overBudget: set<TaskId>)
    requires IsStalled(TwoTasks(), agents, tasks, noAgent, overBudget)
    requires tasks.Keys == TwoTasks().contracts.Keys && forall t | t in tasks :: tasks[t].status != Ready
    ensures noAgent == {}
  {
    hide HasCandidate, StuckOnOption, NothingToPropagate, TwoTasks;
    if t :| t in noAgent {
      assert false;
    }
  }

  /** From such a state the supervisor's next pass raises the no-progress error, whatever its oracles answer. */
  method NextPassStalls(s: Supervisor) returns (r: RoundResult)
    requires s.plan == TwoTasks() && s.BetweenWaves() && s.disk == Some(s.state)
    requires "a" in s.state.tasks && s.state.tasks["a"].status == Escalated && !AllTerminal(s.state.tasks)
    modifies s`state, s`now, s`disk, s`diskRecoveries, s`answers, s.leases
    ensures s.Sound() && r == Stopped(NoProgress({}, {})) && IsStalled(s.plan, s.agents, s.state.tasks, {}, {})
    ensures s.state.tasks == old(s.state.tasks)
  {
    hide PlanValid, SoundState, TasksOk, GatesExact, IsStalled, IsSafe, Left, CheckpointOk, AllNamed, AllTried, EndedStays, WaveOk, IsPass,
      IsIdle, TwoTasks, JobA, JobB, HasEscalatedOption, NothingToPropagate, OnlyFailed, IsApplied, HasBadPath, AllTerminal, IsComplete;
    ghost var tasks := s.state.tasks;
    ghost var pass;
    r, pass := s.Round();
    PassDoesNothing(s.agents, tasks, pass, s.recoveries);
    EndedStaysEscalated(tasks, s.state.tasks, "a");
    SoundTasks(s.plan, s.state, s.recoveries, s.now);
    NoneIsReady(s.state.tasks, s.recoveries);
    SoundKeys(s.plan, s.state, s.recoveries, s.now);
    NobodyWaits(s.agents, s.state.tasks, pass.wave.noAgent, {});
  }

  lemma EndedStaysEscalated(before: Tasks, after: Tasks, id: TaskId)
    requires EndedStays(before, after) && id in before && before[id].status == Escalated
    ensures id in after && after[id] == before[id]
  {
  }

  /** The supervisor in that state. */
  method DeadEndExample(at: Time) returns (s: Supervisor, r: RoundResult)
    ensures s.plan == TwoTasks() && s.agents == Agents() && r == Stopped(NoProgress({}, {}))
    ensures s.Sound() && s.state.tasks == RejectedA(at).tasks && IsStalled(s.plan, s.agents, s.state.tasks, {}, {})
  {
    hide PlanValid, SoundState, GatesExact, OnlyMarked, AllMarked, JobA, JobB, IsStalled, IsPass, IsIdle, RegistryValid, Agents,
      LeasedOne, AllNamed, RejectedA, IsRestful, NoRecoveries, Marked, InitialState, RunningA, AppliedTask, HasCandidate, TableA;
    DeadEndIsReached(at);
    WorkersBounded(TwoTasks());
    IdleIsRestful(RejectedA(at).tasks);
    s := new Supervisor(TwoTasks(), Agents(), RejectedA(at), Some(RejectedA(at)), at, NoRecoveries(TwoTasks()));
    r := NextPassStalls(s);
  }

  // --- A crash that grants one attempt more ---

  function ResumedA(at: Time): (r: WorkflowState)
    ensures "a" in r.tasks
  {
    var s := RunningA(OneTask(), at);
    ReplaceTask(s, RecoverToReady(s.tasks["a"], at, InterruptedReason()))
  }

  lemma RecoveringA(s: WorkflowState, rec: Recoveries, at: Time)
    requires Holds(OneTask(), s, rec, at) && s.tasks["a"].status == Running
    ensures var s' := ReplaceTask(s, RecoverToReady(s.tasks["a"], at, InterruptedReason()));
            && Holds(OneTask(), s', AfterCrash(rec, s.tasks), at) && IsIdle(s'.tasks)
            && AllRecovered(s.tasks, s'.tasks) && OnlyMarked(s'.tasks, s'.tasks) && AllMarked(OneTask().contracts, s'.tasks)
            && WaveIds(OneTask(), ["a"], s'.tasks) && "a" in s'.tasks && s'.tasks["a"].attemptCount == s.tasks["a"].attemptCount
  {
    hide PlanValid, SoundState, JobA, InterruptedReason, GatesExact, RecoverToReady, IsIdle, AllRecovered, OnlyMarked, AllMarked, WaveIds, AfterCrash;
    SoundKeys(OneTask(), s, rec, at);
    RecoverOne(OneTask(), s, rec, at, "a", at);
    var s' := ReplaceTask(s, RecoverToReady(s.tasks["a"], at, InterruptedReason()));
    OnlyTaskRecovered(s.tasks, s'.tasks, rec, at);
    GatesStayExact(OneTask(), s.gates, s.tasks, s'.tasks);
  }

  lemma OnlyTaskRecovered(before: Tasks, after: Tasks, rec: Recoveries, at: Time)
    requires before.Keys == rec.Keys == {"a"} && before["a"].status == Running && before["a"].taskId == "a"
    requires after == before["a" := RecoverToReady(before["a"], at, InterruptedReason())]
    ensures IsIdle(after) && AllRecovered(before, after) && OnlyMarked(after, after) && AllMarked(OneTask().contracts, after)
    ensures WaveIds(OneTask(), ["a"], after) && after["a"].attemptCount == before["a"].attemptCount && after["a"].status == Ready
    ensures rec["a" := CutShort(before["a"], rec["a"])] == AfterCrash(rec, before) && after["a"].updatedAt == at && after["a"].taskId == "a"
  {
    hide InterruptedReason, JobA;
  }

  /** The only attempt is under way on disk; the process stops, resuming makes the task ready, and the next pass starts it
      again: on disk, two attempts where one is the maximum. */
  lemma ExtraAttemptExample(at: Time)
    ensures RegistryValid(Agents()) && PlanValid(OneTask()) && OneTask().contracts["a"].maxAttempts == 1
    ensures var p, rec, started, resumed := OneTask(), NoRecoveries(OneTask()), RunningA(OneTask(), at), ResumedA(at);
            var again := Started(resumed, at);
            && PassStartsA(p, InitialState(p, at).tasks, Marked(p, at).tasks, started.tasks, 1, at) && CheckpointOk(p, started, rec)
            && AllRecovered(started.tasks, resumed.tasks)
            && PassStartsA(p, resumed.tasks, resumed.tasks, again.tasks, 2, at) && CheckpointOk(p, again, AfterCrash(rec, started.tasks))
            && "a" in again.tasks && again.tasks["a"].attemptCount == 2
  {
    hide PlanValid, SoundState, GatesExact, Moved, OnlyMarked, AllMarked, WaveIds, RegistryValid, IsIdle, Marked, PassStartsA,
      Started, StartedTask, InitialTask, AllNamed, Agents, NoRecoveries, LeaseA, CheckpointOk, Move, LeaseOf, RecoverToReady,
      AllRecovered, AfterCrash, InitialTasks, InterruptedReason;
    var p, rec := OneTask(), NoRecoveries(OneTask());
    OneTaskIsValid();
    AgentsAreValid();
    MarkingA(p, at);
    MarkedFresh(at);
    StartingA(p, InitialState(p, at).tasks, Marked(p, at), rec, at);
    StartedOnce(Marked(p, at).tasks["a"], LeaseOf(LeaseA(at)), at);
    RecoveringA(RunningA(p, at), rec, at);
    StartingA(p, ResumedA(at).tasks, ResumedA(at), AfterCrash(rec, RunningA(p, at).tasks), at);
    StartedOnce(ResumedA(at).tasks["a"], LeaseOf(LeaseA(at)), at);
  }
}
