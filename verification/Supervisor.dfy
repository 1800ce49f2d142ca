/** The supervisor: the single writer that runs a workflow in waves, checkpoints it and recovers it.

    Workers, budgets and the clock are oracles: their answers are arbitrary, except that a worker's
    answer is a valid result and the clock never goes back. An exception that leaves `Run` is an
    outcome; whatever the outcome, only the checkpoint on disk survives. */
module Supervisor {
  import opened Wrappers
  import opened Ordering
  import opened Scopes
  import opened Leases
  import opened Lifecycle
  import opened Workflow
  import opened Registry
  import opened Supervision
  import opened Waves

  predicate AllNamed(agents: seq<AgentDefinition>) {
    forall a | a in agents :: a.agentId != ""
  }

  function CreatedMessage(): (r: string)
    ensures r != ""
  {
    "supervisor initialized validated workflow"
  }

  function ClearedMessage(): (r: string)
    ensures r != ""
  {
    "stale active lease cleared during resume"
  }

  lemma NamedAgent(agents: seq<AgentDefinition>, a: AgentDefinition)
    requires AllNamed(agents) && a in agents
    ensures a.agentId != ""
  {
  }

  function OverBudgetMessage(): (r: string)
    ensures r != ""
  {
    "declared task budget exceeds remaining sprint budget"
  }

  function ConflictMessage(): (r: string)
    ensures r != ""
  {
    "lease conflict"
  }

  function RegisteredMessage(name: string): (r: string)
    ensures r != ""
  {
    "registered " + name
  }

  function HandoffMessage(to: TaskId): (r: string)
    ensures r != ""
  {
    "handoff to " + to
  }

  function SkipReason(): (r: string)
    ensures r != ""
  {
    "optional GPU stage skipped"
  }

  class Supervisor {
    const plan: Plan
    const agents: seq<AgentDefinition>
    const leases: PathLeaseManager
    var state: WorkflowState
    var disk: Option<WorkflowState>
    var now: Time
    /** Attempts cut short on the way to this state, and on the way to the checkpoint on disk. */
    ghost var recoveries: Recoveries
    ghost var diskRecoveries: Recoveries
    ghost var answers: Answers

    constructor (plan: Plan, agents: seq<AgentDefinition>, state: WorkflowState, disk: Option<WorkflowState>, now: Time, ghost rec: Recoveries)
      requires 1 <= plan.maxWorkers <= 3
      ensures this.plan == plan && this.agents == agents && this.state == state && this.disk == disk && this.now == now
      ensures recoveries == rec == diskRecoveries && answers == Answers(0, 0) && fresh(leases) && leases.State() == LeaseState(map[], 0, plan.maxWorkers)
    {
      this.plan := plan;
      this.agents := agents;
      leases := new PathLeaseManager(plan.maxWorkers);
      this.state := state;
      this.disk := disk;
      this.now := now;
      recoveries := rec;
      diskRecoveries := rec;
      answers := Answers(0, 0);
    }

    /** A new run. `written` is false when the budget account raises before the first checkpoint is on disk. */
    static method Create(plan: Plan, agents: seq<AgentDefinition>, createdAt: Time) returns (s: Supervisor, written: bool)
      requires PlanValid(plan) && AllNamed(agents)
      ensures fresh(s) && fresh(s.leases) && s.plan == plan && s.agents == agents && s.BetweenWaves() && createdAt <= s.now
      ensures s.recoveries == NoRecoveries(plan) && s.state.tasks == InitialTasks(plan.contracts, createdAt)
      ensures s.disk == (if written then Some(s.state) else None) && s.answers == Answers(if written then 0 else 1, 0)
    {
      hide SoundState, GatesExact, IsIdle, AllNamed, CreatedMessage, AppendEvent, NextEvent, PlanValid, NoRecoveries, InitialTasks, ClosedGates, IsRestful;
      WorkersBounded(plan);
      InitialStateIsSound(plan, createdAt);
      s := new Supervisor(plan, agents, InitialState(plan, createdAt), None, createdAt, NoRecoveries(plan));
      s.Record(WorkflowCreated, None, CreatedMessage());
      IdleIsRestful(s.state.tasks);
      written := s.Checkpoint();
    }

    /** Continues from a checkpoint: it always loads, and interrupted tasks become ready and keep their counts. */
    static method Resume(plan: Plan, agents: seq<AgentDefinition>, checkpoint: WorkflowState, start: Time, ghost rec: Recoveries)
      returns (s: Supervisor, written: bool)
      requires CheckpointOk(plan, checkpoint, rec) && AllNamed(agents) && checkpoint.updatedAt <= start
      ensures fresh(s) && fresh(s.leases) && s.plan == plan && s.agents == agents && s.BetweenWaves() && start <= s.now
      ensures s.recoveries == AfterCrash(rec, checkpoint.tasks) && AllRecovered(checkpoint.tasks, s.state.tasks)
      ensures s.disk == Some(if written then s.state else checkpoint) && s.diskRecoveries == (if written then s.recoveries else rec)
      ensures checkpoint.log.events <= s.state.log.events
      ensures s.answers == Answers(if written then 0 else 1, 0)
      ensures s.state.gates == checkpoint.gates && s.state.artifacts == checkpoint.artifacts && s.state.handoffs == checkpoint.handoffs
    {
      hide SoundState, GatesExact, IsIdle, AllNamed, PlanValid, AllRecovered, AfterCrash, ClearedMessage, AppendEvent, NextEvent, IsRestful;
      SoundKeys(plan, checkpoint, rec, checkpoint.updatedAt);
      WorkersBounded(plan);
      LaterIsStillSound(plan, checkpoint, rec, checkpoint.updatedAt, start);
      s := new Supervisor(plan, agents, checkpoint, Some(checkpoint), start, rec);
      var recovered := s.RecoverInterrupted();
      RecoveredIsIdle(plan, checkpoint, s.state.tasks);
      s.NoteRecovered(recovered);
      IdleIsRestful(s.state.tasks);
      written := s.Checkpoint();
    }

    /** Returns every interrupted task to ready. */
    method RecoverInterrupted() returns (recovered: seq<TaskId>)
      requires Sound()
      modifies this`state, this`now, this`recoveries
      ensures Sound() && old(now) <= now && SameLedgers(old(state), state)
      ensures AllRecovered(old(state.tasks), state.tasks) && recoveries == AfterCrash(old(recoveries), old(state.tasks))
    {
      hide SoundState, PlanValid, AllNamed, PartlyRecovered, AllRecovered, AfterCrash, RecoverToReady, InterruptedReason;
      SoundKeys(plan, state, recoveries, now);
      recovered := [];
      ghost var tasks := state.tasks;
      ghost var rec := recoveries;
      PartlyRecoveredStart(tasks, rec);
      for i := 0 to |plan.order|
        invariant Sound() && old(now) <= now && SameLedgers(old(state), state)
        invariant PartlyRecovered(tasks, rec, state.tasks, recoveries, plan.order[..i])
      {
        var id := plan.order[i];
        NotYetDone(plan.order, i);
        PartlyRecoveredKeys(tasks, rec, state.tasks, recoveries, plan.order[..i]);
        if IsActive(state.tasks[id].status) {
          RecoverTask(id, tasks, rec, plan.order[..i]);
          recovered := recovered + [id];
        } else {
          PartlyRecoveredSkip(tasks, rec, state.tasks, recoveries, plan.order[..i], id);
        }
      }
      assert plan.order[..|plan.order|] == plan.order;
      PartlyRecoveredDone(plan, tasks, rec, state.tasks, recoveries);
    }

    method RecoverTask(id: TaskId, ghost tasks: Tasks, ghost rec: Recoveries, ghost done: seq<TaskId>)
      requires Sound() && id in state.tasks && id in recoveries && IsActive(state.tasks[id].status)
      requires PartlyRecovered(tasks, rec, state.tasks, recoveries, done) && id !in done
      modifies this`state, this`now, this`recoveries
      ensures Sound() && old(now) <= now && SameLedgers(old(state), state)
      ensures PartlyRecovered(tasks, rec, state.tasks, recoveries, done + [id])
    {
      hide SoundState, PlanValid, AllNamed, RecoverToReady, InterruptedReason, PartlyRecovered;
      ghost var before := state;
      ghost var earlier := now;
      var at := Tick();
      RecoverOne(plan, state, recoveries, earlier, id, at);
      PartlyRecoveredKeys(tasks, rec, state.tasks, recoveries, done);
      PartlyRecoveredStep(tasks, rec, state.tasks, recoveries, done, id, at);
      state := ReplaceTask(state, RecoverToReady(state.tasks[id], at, InterruptedReason()));
      recoveries := recoveries[id := CutShort(before.tasks[id], recoveries[id])];
    }

    method NoteRecovered(recovered: seq<TaskId>)
      requires Sound()
      modifies this`state, this`now
      ensures Sound() && old(now) <= now && state.tasks == old(state.tasks)
      ensures SameLedgers(old(state).(activeAgents := {}), state)
    {
      hide SoundState, PlanValid, AllNamed, ClearedMessage, AppendEvent, NextEvent;
      NotesKeepSound(plan, state, recoveries, now, state.blockers, state.decisions, {}, state.phase);
      state := state.(activeAgents := {});
      for i := 0 to |recovered|
        invariant Sound() && old(now) <= now && state.tasks == old(state.tasks)
        invariant SameLedgers(old(state).(activeAgents := {}), state)
      {
        Record(Note, Some(recovered[i]), ClearedMessage());
      }
    }

    ghost predicate Sound()
      reads this
    {
      SoundState(plan, state, recoveries, now) && AllNamed(agents)
    }

    ghost predicate DiskOk()
      reads this
    {
      disk.Some? ==> CheckpointOk(plan, disk.value, diskRecoveries)
    }

    /** Between two rounds of the main loop. */
    ghost predicate BetweenWaves()
      reads this, leases
    {
      && Sound() && DiskOk() && GatesExact(plan, state.gates, state.tasks) && IsIdle(state.tasks)
      && leases.leases == map[] && IsSafe(leases.State()) && leases.maxWorkers == plan.maxWorkers
    }

    ghost function RoundsLeft(): int
      requires Sound()
      reads this
    {
      SoundKeys(plan, state, recoveries, now);
      Left(plan, state.tasks)
    }

    // ----- Oracles -----

    method Tick() returns (at: Time)
      modifies this`now
      ensures at == now && old(now) <= now
    {
      assert now <= now;
      at :| now <= at;
      now := at;
    }

    method Ask() returns (answer: bool) {
      answer := *;
    }

    /** Whether the process is stopped here. */
    method IsInterrupted() returns (stopped: bool)
      modifies this`answers
      ensures answers == if stopped then Answered(old(answers), Interrupted) else old(answers)
    {
      stopped := Ask();
      if stopped {
        answers := Answered(answers, Interrupted);
      }
    }

    method AwaitWorker() returns (v: Verdict)
      ensures VerdictValid(v)
    {
      v := *;
      if !VerdictValid(v) {
        v := Rejected("worker raised", ModelUnavailable, true);
      }
    }

    // ----- Recording -----

    method Record(kind: EventKind, taskId: Option<TaskId>, message: string)
      requires Sound() && kind != StatusTransition && message != ""
      modifies this`state, this`now
      ensures Sound() && old(now) <= now
      ensures state == AppendEvent(old(state), NextEvent(old(state), kind, taskId, None, None, Some(message), now))
      ensures SameLedgers(old(state), state) && SameNotes(old(state), state) && state.tasks == old(state.tasks)
    {
      hide TasksOk, PlanValid, BooksOk, AllNamed, MayAppend;
      ghost var before := now;
      var at := Tick();
      RecordingKeepsBooks(plan, state, kind, taskId, None, None, Some(message), before, at);
      state := AppendEvent(state, NextEvent(state, kind, taskId, None, None, Some(message), at));
    }

    method MoveTask(id: TaskId, target: Status, d: Details) returns (at: Time)
      requires Sound() && id in state.tasks && id in plan.contracts
      requires IsSupervisorMove(plan.contracts[id], state.tasks[id], state.tasks, target, d)
      modifies this`state, this`now
      ensures Sound() && old(now) <= at <= now
      ensures state == MovedState(old(state), id, target, d, at, now)
      ensures state.tasks == old(state.tasks)[id := Move(old(state.tasks[id]), target, d, at)]
      ensures SameLedgers(old(state), state) && SameNotes(old(state), state)
    {
      hide SoundState, PlanValid, AllNamed, IsSupervisorMove, Move, EnteredMessage;
      ghost var before := now;
      at := Tick();
      var end := Tick();
      MovedStateIsSound(plan, state, recoveries, before, id, target, d, at, end);
      state := MovedState(state, id, target, d, at, end);
    }

    method BlockAndEscalate(id: TaskId, error: string, category: FailureCategory) returns (at: Time)
      requires Sound() && id in state.tasks && id in plan.contracts && error != ""
      requires MayEscalate(state.tasks[id].status)
      modifies this`state, this`now
      ensures Sound() && old(now) <= at <= now && SameLedgers(old(state), state)
      ensures state.tasks == old(state.tasks)[id := Escalate(old(state.tasks[id]), error, category, at)]
      ensures state.blockers == old(state.blockers) + [id + ": " + error] && state.decisions == old(state.decisions)
    {
      hide SoundState, PlanValid, AllNamed, IsSupervisorMove, Move, MovedState, Escalate, FailureDetails, BlockingDetails;
      ghost var t := state.tasks[id];
      EscalationIsAllowed(plan.contracts[id], t, state.tasks, state.tasks, error, category, now);
      var at1 := MoveTask(id, Blocked, BlockingDetails(error, category));
      EscalationIsAllowed(plan.contracts[id], t, state.tasks, state.tasks, error, category, at1);
      at := MoveTask(id, Escalated, FailureDetails(error, category));
      EscalationIsTwoMoves(t, error, category, at1, at);
      ghost var before := state;
      NotesKeepSound(plan, state, recoveries, now, state.blockers + [id + ": " + error], state.decisions, state.activeAgents, state.phase);
      state := state.(blockers := state.blockers + [id + ": " + error]);
    }

    /** Writes a checkpoint, unless the budget account finds a limit exceeded and raises. */
    method Checkpoint() returns (written: bool)
      requires Sound() && GatesExact(plan, state.gates, state.tasks) && IsRestful(state.tasks) && DiskOk()
      modifies this`state, this`now, this`disk, this`diskRecoveries, this`answers
      ensures Sound() && DiskOk() && old(now) <= now
      ensures state.tasks == old(state.tasks) && SameNotes(old(state), state)
      ensures SameLedgers(old(state).(checkpointSequence := state.checkpointSequence), state)
      ensures if written then disk == Some(state) && diskRecoveries == recoveries && state.checkpointSequence == old(state.checkpointSequence) + 1
              else disk == old(disk) && diskRecoveries == old(diskRecoveries) && state == old(state)
      ensures answers == if written then old(answers) else Answered(old(answers), OutOfBudget)
    {
      hide PlanValid, TasksOk, BooksOk, GatesExact, AllNamed, IsRestful, CheckpointMessage;
      ghost var before := now;
      var at := Tick();
      written := Ask();
      if written {
        var end := Tick();
        CheckpointedStateIsOk(plan, state, recoveries, before, at, end);
        state := CheckpointedState(state, at, end);
        disk := Some(state);
        diskRecoveries := recoveries;
      } else {
        answers := Answered(answers, OutOfBudget);
        LaterIsStillSound(plan, state, recoveries, before, at);
      }
    }

    // ----- The stages of the main loop -----

    /** Marks every pending or retried task whose dependencies are done. */
    method MarkReady()
      requires Sound()
      modifies this`state, this`now
      ensures Sound() && old(now) <= now && SameLedgers(old(state), state)
      ensures OnlyMarked(old(state.tasks), state.tasks) && AllMarked(plan.contracts, state.tasks)
      ensures RoundsLeft() == old(RoundsLeft())
    {
      hide SoundState, PlanValid, AllNamed, OnlyMarked, AllMarked, DependenciesDone, Left, AllReady, ReadyIds;
      SoundKeys(plan, state, recoveries, now);
      ghost var tasks := state.tasks;
      var ids := ReadyIds(plan.order, plan.contracts, state.tasks);
      NothingMarkedYet(tasks, ids);
      for i := 0 to |ids|
        invariant Sound() && old(now) <= now && SameLedgers(old(state), state)
        invariant OnlyMarked(tasks, state.tasks) && AllReady(state.tasks, ids, i)
        invariant RoundsLeft() == old(RoundsLeft())
      {
        ReadyIdsListed(plan.order, plan.contracts, tasks, ids[i]);
        OnlyMarkedKeys(tasks, state.tasks);
        MarkingKeepsReadiness(plan.contracts[ids[i]], tasks, state.tasks);
        if state.tasks[ids[i]].status == Pending || state.tasks[ids[i]].status == Retry {
          MarkTask(tasks, ids, i);
        } else {
          MarkedStaysWaiting(tasks, state.tasks, ids, i);
        }
      }
      EverythingMarked(plan, tasks, state.tasks, ids);
    }

    method MarkTask(ghost tasks: Tasks, ids: seq<TaskId>, i: nat)
      requires i < |ids|
      requires Sound() && ids[i] in state.tasks && ids[i] in plan.contracts
      requires OnlyMarked(tasks, state.tasks) && AllReady(state.tasks, ids, i)
      requires state.tasks[ids[i]].status == Pending || state.tasks[ids[i]].status == Retry
      requires DependenciesDone(plan.contracts[ids[i]], state.tasks)
      modifies this`state, this`now
      ensures Sound() && old(now) <= now && SameLedgers(old(state), state)
      ensures OnlyMarked(tasks, state.tasks) && AllReady(state.tasks, ids, i + 1)
      ensures RoundsLeft() == old(RoundsLeft())
    {
      hide SoundState, PlanValid, AllNamed, IsSupervisorMove, OnlyMarked, DependenciesDone, Left, MovedState, Outstanding, MayMove, AllReady;
      var id := ids[i];
      ghost var t := state.tasks[id];
      ghost var before := state;
      MarkingIsAllowed(plan.contracts[id], t, state.tasks);
      ghost var earlier := now;
      var at := MoveTask(id, Ready, PLAIN);
      MarkOne(tasks, before.tasks, ids, i, at);
      OpenMovesKeepRounds(plan.contracts[id], t, Ready, PLAIN, at);
      LeftAfter(plan, before, recoveries, earlier, id, state.tasks[id]);
    }

    /** Cancels ready optional GPU tasks the training budget decides against. */
    method SkipOptional() returns (changed: bool)
      requires Sound()
      modifies this`state, this`now
      ensures Sound() && old(now) <= now && SameLedgers(old(state), state)
      ensures OnlySkipped(plan.contracts, old(state.tasks), state.tasks) && (changed <==> state.tasks != old(state.tasks))
      ensures if changed then RoundsLeft() < old(RoundsLeft()) else state == old(state)
    {
      hide SoundState, PlanValid, AllNamed, IsSkipped, Left;
      SoundKeys(plan, state, recoveries, now);
      ghost var tasks := state.tasks;
      changed := false;
      for i := 0 to |plan.order|
        invariant Sound() && old(now) <= now && SameLedgers(old(state), state)
        invariant OnlySkipped(plan.contracts, tasks, state.tasks)
        invariant if changed then RoundsLeft() < old(RoundsLeft()) else state == old(state)
      {
        var id := plan.order[i];
        assert id in plan.order;
        if state.tasks[id].status == Ready && plan.contracts[id].optional && plan.contracts[id].needsGpu {
          var train := Ask();
          if !train {
            SkipTask(tasks, id);
            changed := true;
          }
        }
      }
    }

    method SkipTask(ghost tasks: Tasks, id: TaskId)
      requires Sound() && id in state.tasks && OnlySkipped(plan.contracts, tasks, state.tasks)
      requires state.tasks[id].status == Ready && plan.contracts[id].optional && plan.contracts[id].needsGpu
      modifies this`state, this`now
      ensures Sound() && old(now) <= now && SameLedgers(old(state), state)
      ensures OnlySkipped(plan.contracts, tasks, state.tasks)
      ensures RoundsLeft() < old(RoundsLeft())
    {
      hide SoundState, PlanValid, AllNamed, IsSupervisorMove, OnlySkipped, Left, MovedState, SkipReason, MayMove;
      ghost var t := state.tasks[id];
      ghost var before := state;
      ghost var earlier := now;
      SoundKeys(plan, state, recoveries, now);
      SoundTaskFlags(plan, state, recoveries, now, id);
      var reason := SkipReason();
      SkippingIsAllowed(plan.contracts[id], t, state.tasks, reason);
      var at := MoveTask(id, Cancelled, PLAIN.(reason := Some(reason)));
      SkipOne(plan.contracts, tasks, before.tasks, id, reason, at);
      LeftAfter(plan, before, recoveries, earlier, id, state.tasks[id]);
      NotesKeepSound(plan, state, recoveries, now, state.blockers, state.decisions + [reason], state.activeAgents, state.phase);
      state := state.(decisions := state.decisions + [reason]);
    }

    /** Escalates every waiting task with a failed requirement, in one pass in scheduling order. */
    method Propagate() returns (changed: bool)
      requires Sound()
      modifies this`state, this`now
      ensures Sound() && old(now) <= now && SameLedgers(old(state), state)
      ensures OnlyFailed(plan.contracts, old(state.tasks), state.tasks) && NothingToPropagate(plan.contracts, state.tasks)
      ensures if changed then RoundsLeft() < old(RoundsLeft()) else state == old(state)
      ensures changed <==> !old(NothingToPropagate(plan.contracts, state.tasks))
    {
      hide SoundState, PlanValid, AllNamed, HasFailedRequirement, IsEscalation, Left, PropagatedUpTo, DependencyError, OnlyFailed, NothingToPropagate;
      SoundKeys(plan, state, recoveries, now);
      ghost var tasks := state.tasks;
      changed := false;
      StartPropagating(plan, tasks);
      for i := 0 to |plan.order|
        invariant Sound() && old(now) <= now && SameLedgers(old(state), state)
        invariant OnlyFailed(plan.contracts, tasks, state.tasks) && PropagatedUpTo(plan, state.tasks, i)
        invariant if changed then RoundsLeft() < old(RoundsLeft()) else state == old(state)
        invariant changed ==> !NothingToPropagate(plan.contracts, tasks)
      {
        SoundKeys(plan, state, recoveries, now);
        var id := plan.order[i];
        assert id in plan.order;
        var failed := FailedRequirements(plan.contracts[id].dependencies, state.tasks);
        FailedRequirementsListed(plan.contracts[id], state.tasks);
        if IsWaiting(state.tasks[id].status) && failed != [] {
          SomethingToPropagate(plan.contracts, state.tasks, id);
          EscalateDependent(tasks, i, DependencyError(failed));
          changed := true;
        } else {
          SettleOne(plan, state.tasks, i);
        }
      }
      SoundKeys(plan, state, recoveries, now);
      PropagatedEverywhere(plan, state.tasks);
    }

    method EscalateDependent(ghost tasks: Tasks, i: nat, error: string)
      requires Sound() && i < |plan.order| && plan.order[i] in state.tasks && plan.order[i] in plan.contracts
      requires OnlyFailed(plan.contracts, tasks, state.tasks) && PropagatedUpTo(plan, state.tasks, i)
      requires IsWaiting(state.tasks[plan.order[i]].status) && HasFailedRequirement(plan.contracts[plan.order[i]], state.tasks)
      requires error != ""
      modifies this`state, this`now
      ensures Sound() && old(now) <= now && SameLedgers(old(state), state)
      ensures OnlyFailed(plan.contracts, tasks, state.tasks) && PropagatedUpTo(plan, state.tasks, i + 1)
      ensures RoundsLeft() < old(RoundsLeft())
    {
      hide SoundState, PlanValid, AllNamed, HasFailedRequirement, Left, PropagatedUpTo, OnlyFailed;
      ghost var before := state;
      ghost var earlier := now;
      SoundKeys(plan, state, recoveries, now);
      var at := BlockAndEscalate(plan.order[i], error, DependencyMissing);
      EscalateOne(plan, tasks, before.tasks, i, state.tasks[plan.order[i]]);
      LeftAfter(plan, before, recoveries, earlier, plan.order[i], state.tasks[plan.order[i]]);
    }

    // ----- Leasing -----

    /** Selects an agent, checks the budget, leases the paths and starts the task. */
    method LeaseTask(c: TaskContract, active: set<string>) returns (r: LeaseAttempt)
      requires Sound() && IsSafe(leases.State()) && leases.maxWorkers == plan.maxWorkers
      requires c.taskId in state.tasks && c.taskId in plan.contracts && plan.contracts[c.taskId] == c && state.tasks[c.taskId].status == Ready
      modifies this`state, this`now, leases
      ensures Sound() && IsSafe(leases.State()) && old(now) <= now && SameLedgers(old(state), state)
      ensures LeasedOne(agents, c, active, plan.maxWorkers, r, old(state.tasks), state.tasks, old(leases.leases), leases.leases, old(now), now)
      ensures if r.OverBudget? then RoundsLeft() < old(RoundsLeft()) else RoundsLeft() == old(RoundsLeft())
    {
      hide SoundState, PlanValid, AllNamed, IsCandidate, IsStarted, IsEscalation, IsSafe, Left, Escalate, OverBudgetMessage,
        LiveAt, GivenToCandidate, GrantedOne, StartedOne, Fits, CheckPaths, IsRefused;
      var selection := Select(agents, c.owner, active, c.taskType, c.files);
      match selection
      case Unauthorised =>
        return NotAuthorised;
      case NoneAvailable => return NoAgent;
      case Selected(agent) =>
        var fits := Ask();
        if fits {
          NamedAgent(agents, agent);
          r := Grant(c, agent.agentId);
          if r.Scheduled? {
            CandidateIsGiven(agents, agent, r.work, active);
          }
        } else {
          r := EscalateOverBudget(c.taskId);
        }
    }

    method EscalateOverBudget(id: TaskId) returns (r: LeaseAttempt)
      requires Sound() && id in state.tasks && id in plan.contracts && state.tasks[id].status == Ready
      modifies this`state, this`now
      ensures Sound() && old(now) <= now && SameLedgers(old(state), state) && r == OverBudget
      ensures EscalatedOne(id, old(state.tasks), state.tasks) && RoundsLeft() < old(RoundsLeft())
    {
      hide SoundState, PlanValid, AllNamed, IsEscalation, Left, OverBudgetMessage, SameLedgers;
      ghost var before := state;
      ghost var earlier := now;
      var at := BlockAndEscalate(id, OverBudgetMessage(), BudgetExceeded);
      LeftAfter(plan, before, recoveries, earlier, id, state.tasks[id]);
      EscalateIsEscalation(before.tasks[id], OverBudgetMessage(), BudgetExceeded, at);
      r := OverBudget;
    }

    method Grant(c: TaskContract, agentId: string) returns (r: LeaseAttempt)
      requires Sound() && IsSafe(leases.State()) && agentId != ""
      requires c.taskId in state.tasks && c.taskId in plan.contracts && plan.contracts[c.taskId] == c && state.tasks[c.taskId].status == Ready
      modifies this`state, this`now, leases
      ensures Sound() && IsSafe(leases.State()) && old(now) <= now && SameLedgers(old(state), state)
      ensures RoundsLeft() == old(RoundsLeft())
      ensures match r
        case Scheduled(w) =>
          && w.contract == c && w.agentId == agentId
          && StartedOne(c.taskId, w, old(state.tasks), state.tasks)
          && GrantedOne(w, old(leases.leases), leases.leases, old(now), now)
        case Refused(at) =>
          && state.tasks == old(state.tasks) && old(now) <= at <= now
          && leases.leases == LiveAt(old(leases.leases), at) && IsRefused(c, agentId, leases.leases, leases.maxWorkers)
        case _ => false
    {
      hide SoundState, PlanValid, AllNamed, StartedTask, IsSafe, Left, LiveAt, RequestFor, NothingBlocks,
        ContractValid, ConflictMessage, AppendEvent, NextEvent, AcquireSpec, IsRefused;
      ghost var earlier := now;
      var at := Tick();
      LaterIsStillSound(plan, state, recoveries, earlier, at);
      SoundContract(plan, state, recoveries, now, c.taskId);
      AcquireMeans(leases.State(), c, agentId, at);
      var result := leases.Acquire(RequestFor(c, agentId), at);
      if result.Granted? {
        StartTask(c.taskId, result.lease);
        r := Scheduled(Work(c, agentId, result.lease, state.tasks[c.taskId].attemptCount));
      } else {
        if result.Conflicting? {
          Record(Note, Some(c.taskId), ConflictMessage());
        }
        r := Refused(at);
      }
    }

    method StartTask(id: TaskId, lease: PathLease)
      requires Sound() && id in state.tasks && id in plan.contracts && state.tasks[id].status == Ready
      requires lease.grantedAt < lease.expiresAt
      modifies this`state, this`now
      ensures Sound() && old(now) <= now && SameLedgers(old(state), state) && RoundsLeft() == old(RoundsLeft())
      ensures id in state.tasks && state.tasks == old(state.tasks)[id := state.tasks[id]]
      ensures state.tasks[id] == StartedTask(old(state.tasks[id]), LeaseOf(lease), state.tasks[id].updatedAt)
    {
      hide SoundState, PlanValid, AllNamed, IsSupervisorMove, Left, MovedState, MayMove, Move, Outstanding, StartedTask;
      ghost var t := state.tasks[id];
      ghost var before := state;
      ghost var earlier := now;
      LeasingIsAllowed(plan.contracts[id], t, state.tasks, state.tasks, LeaseOf(lease), now);
      var at1 := MoveTask(id, Leased, PLAIN.(lease := Some(LeaseOf(lease))));
      LeasingIsAllowed(plan.contracts[id], t, state.tasks, state.tasks, LeaseOf(lease), at1);
      var at2 := MoveTask(id, Running, PLAIN);
      StartIsTwoMoves(t, LeaseOf(lease), at1, at2);
      assert state.tasks == before.tasks[id := state.tasks[id]];
      StartedKeepsRounds(plan.contracts[id], t, LeaseOf(lease), at2);
      LeftAfter(plan, before, recoveries, earlier, id, state.tasks[id]);
    }

    /** Leases as many ready tasks as there are workers. */
    method FormWave() returns (f: WaveSoFar, ghost ids: seq<TaskId>, ghost n: nat, unauthorised: Option<TaskId>)
      requires Sound() && leases.leases == map[] && IsSafe(leases.State()) && leases.maxWorkers == plan.maxWorkers
      modifies this`state, this`now, leases
      ensures Sound() && IsSafe(leases.State()) && old(now) <= now && SameLedgers(old(state), state)
      ensures WaveIds(plan, ids, old(state.tasks)) && Forming(plan, agents, ids, n, old(state.tasks), state.tasks, leases.leases, now, f)
      ensures unauthorised.None? && |f.work| < plan.maxWorkers ==> n == |ids|
      ensures unauthorised.Some? ==>
                && unauthorised.value in plan.contracts && unauthorised.value in state.tasks && state.tasks[unauthorised.value].status == Ready
                && HasBadPath(agents, plan.contracts[unauthorised.value], {})
      ensures if f.overBudget == {} then RoundsLeft() == old(RoundsLeft()) else RoundsLeft() < old(RoundsLeft())
    {
      hide SoundState, PlanValid, AllNamed, WaveIds, Forming, Left, SameLedgers, IsSafe, LeasedOne, WithStatusReady, HasBadPath;
      ghost var tasks := state.tasks;
      WaveIdsListed(plan, state, recoveries, now);
      var ready := WithStatusReady(plan.order, state.tasks);
      ids := ready;
      f, n, unauthorised := EMPTY_WAVE, 0, None;
      SoundKeys(plan, state, recoveries, now);
      StartForming(plan, agents, ids, tasks, now);
      SameLedgersReflexive(state);
      var i := 0;
      while i < |ready| && |f.work| < plan.maxWorkers
        invariant i == n <= |ready|
        invariant Sound() && IsSafe(leases.State()) && old(now) <= now && SameLedgers(old(state), state)
        invariant Forming(plan, agents, ready, n, tasks, state.tasks, leases.leases, now, f)
        invariant if f.overBudget == {} then RoundsLeft() == old(RoundsLeft()) else RoundsLeft() < old(RoundsLeft())
      {
        NextIsReady(plan, agents, ready, i, tasks, state.tasks, leases.leases, now, f);
        SoundKeys(plan, state, recoveries, now);
        ghost var mid := state;
        ghost var table := leases.leases;
        ghost var from := now;
        var r := LeaseTask(plan.contracts[ready[i]], f.active);
        SameLedgersTransitive(old(state), mid, state);
        if r.NotAuthorised? {
          unauthorised := Some(ready[i]);
          NotAuthorisedChangesNothing(agents, plan.contracts[ready[i]], f.active, plan.maxWorkers, mid.tasks, state.tasks, table, leases.leases, from, now);
          KeepForming(plan, agents, ready, n, tasks, state.tasks, table, from, now, f);
          return;
        }
        TryOne(plan, agents, ready, i, tasks, mid.tasks, state.tasks, table, leases.leases, from, now, f, r);
        f := WithAttempt(f, ready[i], r);
        i := i + 1;
        n := i;
      }
    }

    // ----- Applying results -----

    /** Registers the artifacts of a task in order of their identifiers. */
    method Materialize(id: TaskId, agentId: string, artifacts: seq<string>) returns (names: seq<string>)
      requires Sound()
      modifies this`state, this`now
      ensures Sound() && old(now) <= now && state.tasks == old(state.tasks)
      ensures SameLedgers(old(state).(artifacts := state.artifacts), state)
      ensures names == SortBy(AtMost, artifacts) && IsRegistered(old(state.artifacts), state.artifacts, names, id, agentId)
    {
      hide SoundState, PlanValid, AllNamed, IsRegistered, AppendEvent, NextEvent, RegisteredMessage;
      names := SortBy(AtMost, artifacts);
      NothingRegisteredYet(state.artifacts, names, id, agentId);
      for i := 0 to |names|
        invariant Sound() && old(now) <= now && state.tasks == old(state.tasks)
        invariant SameLedgers(old(state).(artifacts := state.artifacts), state)
        invariant IsRegistered(old(state.artifacts), state.artifacts, names[..i], id, agentId)
      {
        ghost var earlier := now;
        var at := Tick();
        LaterIsStillSound(plan, state, recoveries, earlier, at);
        var a := Artifact(names[i], id, agentId, at);
        RegisterOne(old(state.artifacts), state.artifacts, names, i, a);
        ArtifactKeepsSound(plan, state, recoveries, now, a);
        state := state.(artifacts := state.artifacts[a.artifactId := a]);
        Record(ArtifactRegistered, Some(id), RegisteredMessage(names[i]));
      }
      assert names[..|names|] == names;
    }

    /** Hands the artifacts to every task that depends on this one. */
    method RegisterHandoffs(id: TaskId, names: seq<string>)
      requires Sound() && Distinct(names)
      modifies this`state, this`now
      ensures Sound() && old(now) <= now && state.tasks == old(state.tasks)
      ensures SameLedgers(old(state).(handoffs := state.handoffs), state)
      ensures if names == [] then state == old(state) else HandedOff(plan.tasks, |plan.tasks|, old(state.handoffs), state.handoffs, id, names)
    {
      hide SoundState, PlanValid, AllNamed, HandedOff, AppendEvent, NextEvent, HandoffMessage, HandoffName, HandoffsValid;
      if names == [] {
        return;
      }
      SoundHandoffs(plan, state, recoveries, now);
      NoHandoffYet(plan.tasks, state.handoffs, id, names);
      var handoffs := state.handoffs;
      for i := 0 to |plan.tasks|
        invariant Sound() && old(now) <= now && state.tasks == old(state.tasks) && SameLedgers(old(state), state)
        invariant HandedOff(plan.tasks, i, old(state.handoffs), handoffs, id, names) && HandoffsValid(handoffs)
      {
        var c := plan.tasks[i];
        DependentIsAnother(plan, i, id);
        if !DependsOn(c, id) {
          HandOffNone(plan.tasks, i, old(state.handoffs), handoffs, id, names);
        } else {
          ghost var earlier := now;
          var at := Tick();
          LaterIsStillSound(plan, state, recoveries, earlier, at);
          if HasHandoff(handoffs, HandoffName(id, c.taskId)) {
            HandOffNone(plan.tasks, i, old(state.handoffs), handoffs, id, names);
          } else {
            HandOffOne(plan.tasks, i, old(state.handoffs), handoffs, id, names, at);
            NewHandoffIsValid(handoffs, Handoff(HandoffName(id, c.taskId), id, c.taskId, names, at));
            handoffs := handoffs + [Handoff(HandoffName(id, c.taskId), id, c.taskId, names, at)];
            Record(HandoffRegistered, Some(id), HandoffMessage(c.taskId));
          }
        }
      }
      HandoffsKeepSound(plan, state, recoveries, now, handoffs);
      state := state.(handoffs := handoffs);
    }

    /** Completes a validated task: artifacts, status, gate, handoffs. */
    method Complete(w: Work, artifacts: seq<string>, reason: Option<string>) returns (at: Time)
      requires Sound() && w.contract.taskId in state.tasks && w.contract.taskId in plan.contracts
      requires state.tasks[w.contract.taskId].status == Validating && VerdictValid(Passed(artifacts, reason))
      modifies this`state, this`now
      ensures Sound() && old(now) <= at <= now
      ensures state.tasks == old(state.tasks)[w.contract.taskId :=
                Move(old(state.tasks[w.contract.taskId]), Completed, PLAIN.(outputs := Some(SortBy(AtMost, artifacts)), reason := reason), at)]
      ensures state.gates == OpenedGates(plan, old(state.gates), w.contract.taskId, Passed(artifacts, reason))
      ensures IsRegistered(old(state.artifacts), state.artifacts, SortBy(AtMost, artifacts), w.contract.taskId, w.agentId)
      ensures artifacts != [] ==>
                HandedOff(plan.tasks, |plan.tasks|, old(state.handoffs), state.handoffs, w.contract.taskId, SortBy(AtMost, artifacts))
    {
      hide SoundState, PlanValid, AllNamed, HandedOff, IsRegistered, Move, MovedState, IsSupervisorMove, MayMove, SortBy, OpenedGates, SortedBy, Distinct;
      var id := w.contract.taskId;
      SortedNames(artifacts);
      var names := Materialize(id, w.agentId, artifacts);
      CompletingIsAllowed(plan.contracts[id], state.tasks[id], state.tasks, names, reason);
      at := MoveTask(id, Completed, PLAIN.(outputs := Some(names), reason := reason));
      var gates := OpenedGates(plan, state.gates, id, Passed(artifacts, reason));
      GatesKeepSound(plan, state, recoveries, now, gates);
      state := state.(gates := gates);
      RegisterHandoffs(id, names);
    }

    /** Retries a rejected task while attempts remain, and escalates it otherwise. */
    method Reject(c: TaskContract, error: string, category: FailureCategory, retryable: bool) returns (at: Time)
      requires Sound() && c.taskId in state.tasks && c.taskId in plan.contracts && plan.contracts[c.taskId] == c
      requires state.tasks[c.taskId].status == Validating && error != ""
      modifies this`state, this`now
      ensures Sound() && old(now) <= at <= now && SameLedgers(old(state), state)
      ensures state.tasks == old(state.tasks)[c.taskId :=
                if retryable && old(state.tasks[c.taskId].attemptCount) < c.maxAttempts
                then Move(old(state.tasks[c.taskId]), Retry, FailureDetails(error, category), at)
                else Escalate(old(state.tasks[c.taskId]), error, category, at)]
    {
      hide SoundState, PlanValid, AllNamed, Move, MovedState, IsSupervisorMove, MayMove, Escalate, FailureDetails;
      if retryable && state.tasks[c.taskId].attemptCount < c.maxAttempts {
        RetryingIsAllowed(c, state.tasks[c.taskId], state.tasks, error, category);
        at := MoveTask(c.taskId, Retry, FailureDetails(error, category));
      } else {
        at := BlockAndEscalate(c.taskId, error, category);
      }
    }

    /** Validates, charges and applies one result. */
    method Settle(w: Work, v: Verdict) returns (final: Verdict, at: Time)
      requires Sound() && VerdictValid(v)
      requires w.contract.taskId in plan.contracts && plan.contracts[w.contract.taskId] == w.contract
      requires w.contract.taskId in state.tasks && state.tasks[w.contract.taskId].status == Running
      modifies this`state, this`now
      ensures Sound() && old(now) <= at <= now && ComesTo(v, final)
      ensures state.tasks == old(state.tasks)[w.contract.taskId := AppliedTask(w.contract, old(state.tasks[w.contract.taskId]), final, at)]
      ensures state.gates == OpenedGates(plan, old(state.gates), w.contract.taskId, final)
      ensures RoundsLeft() < old(RoundsLeft())
    {
      hide SoundState, PlanValid, AllNamed, HandedOff, IsRegistered, Move, MovedState, IsSupervisorMove, MayMove, SortBy, Escalate,
        FailureDetails, AppliedTask, Left, Outstanding, ChargeMessage, Distinct;
      var id := w.contract.taskId;
      ghost var before := state;
      ghost var earlier := now;
      ghost var t := state.tasks[id];
      SoundTaskFlags(plan, state, recoveries, now, id);
      ValidatingIsAllowed(w.contract, t, state.tasks);
      var at1 := MoveTask(id, Validating, PLAIN);
      ValidatingTask(t, at1);
      final := v;
      if v.Passed? {
        var charged := Charge();
        if !charged {
          final := Rejected(ChargeMessage(), BudgetExceeded, false);
        }
      }
      match final {
        case Passed(artifacts, reason) =>
          at := Complete(w, artifacts, reason);
          CompletionIsTwoMoves(w.contract, t, artifacts, reason, at1, at);
        case Rejected(error, category, retryable) =>
          at := Reject(w.contract, error, category, retryable);
          RejectionIsTwoMoves(w.contract, t, error, category, retryable, at1, at);
      }
      assert state.tasks == before.tasks[id := AppliedTask(w.contract, t, final, at)];
      ApplyingUsesARound(w.contract, t, final, at);
      LeftAfter(plan, before, recoveries, earlier, id, state.tasks[id]);
    }

    /** Whether the budget account accepts the usage. */
    method Charge() returns (charged: bool)
      requires Sound()
      modifies this`now
      ensures Sound() && old(now) <= now
    {
      hide SoundState, AllNamed;
      ghost var earlier := now;
      var at := Tick();
      LaterIsStillSound(plan, state, recoveries, earlier, at);
      charged := Ask();
    }

    /** Part way through a wave: `work` is still to be applied. */
    ghost predicate MidWave(work: seq<Work>)
      reads this, leases
    {
      && Sound() && GatesExact(plan, state.gates, state.tasks)
      && WaveShape(plan, work) && RunningExactly(state.tasks, work)
      && IsTableOf(leases.leases, work, now) && IsSafe(leases.State()) && leases.maxWorkers == plan.maxWorkers
    }

    /** Applies the first result of a wave and gives its lease back. */
    method ApplyResult(work: seq<Work>, v: Verdict) returns (released: bool, ghost final: Verdict, ghost at: Time)
      requires work != [] && MidWave(work) && VerdictValid(v)
      modifies this`state, this`now, leases
      ensures old(now) <= at <= now && Sound() && RoundsLeft() < old(RoundsLeft()) && ComesTo(v, final)
      ensures var id := work[0].contract.taskId;
              && id in old(state.tasks) && old(state.tasks[id]).status == Running
              && state.tasks == old(state.tasks)[id := AppliedTask(work[0].contract, old(state.tasks[id]), final, at)]
              && state.gates == OpenedGates(plan, old(state.gates), id, final)
      ensures released ==> MidWave(work[1..])
      ensures !released ==> work[0].lease.expiresAt <= now
    {
      hide SoundState, PlanValid, AllNamed, GatesExact, WaveShape, RunningExactly, IsTableOf, IsSafe, AppliedTask, OpenedGates, Left,
        VerdictValid, ReleaseSpec, ComesTo;
      var w := work[0];
      FirstOfWave(plan, work, state.tasks);
      ghost var tasks := state.tasks;
      ghost var gates := state.gates;
      ghost var before := now;
      final, at := Settle(w, v);
      SoundHandoffs(plan, state, recoveries, now);
      AppliedKeepsGates(plan, gates, tasks, w.contract.taskId, final, at);
      ShorterWave(plan, work);
      AppliedLeavesRest(tasks, work, w.contract, final, at);
      ghost var earlier := now;
      var end := Tick();
      LaterIsStillSound(plan, state, recoveries, earlier, end);
      ReleaseFirst(plan, leases.State(), work, before, end);
      var result := leases.Release(ByLease(w.lease.leaseId), Agent(w.agentId), end);
      released := result.Released?;
    }

    /** Runs the workers. Their answers are kept by task, so the order they finish in is lost. */
    method ExecuteWave(work: seq<Work>) returns (results: map<TaskId, Verdict>)
      ensures forall w | w in work :: w.contract.taskId in results && VerdictValid(results[w.contract.taskId])
    {
      hide VerdictValid;
      results := map[];
      for i := 0 to |work|
        invariant forall w | w in work[..i] :: w.contract.taskId in results
        invariant forall t | t in results :: VerdictValid(results[t])
      {
        assert work[..i + 1] == work[..i] + [work[i]];
        var v := AwaitWorker();
        results := results[work[i].contract.taskId := v];
      }
      assert work[..|work|] == work;
    }

    /** Applies a wave's results in order of task identifier. */
    method ApplyAll(work: seq<Work>, results: map<TaskId, Verdict>) returns (lost: Option<Work>, ghost done: seq<Settlement>)
      requires MidWave(work)
      requires forall w | w in work :: w.contract.taskId in results && VerdictValid(results[w.contract.taskId])
      modifies this`state, this`now, leases
      ensures old(now) <= now && Sound() && RoundsLeft() + (if lost.None? then |work| else 1) <= old(RoundsLeft())
      ensures lost.None? ==> MidWave([]) && |done| == |work|
      ensures AppliesInOrder(SortBy(ByTaskId, work), results, done, old(now), now)
      ensures state.tasks == AfterApplying(plan.contracts, old(state.tasks), done) && EndedStays(old(state.tasks), state.tasks)
      ensures lost.Some? ==>
                && 1 <= |done| && lost.value == SortBy(ByTaskId, work)[|done| - 1]
                && IsApplied(plan, state.tasks, lost.value) && lost.value.lease.expiresAt <= now
    {
      hide SoundState, PlanValid, AllNamed, GatesExact, WaveShape, RunningExactly, IsTableOf, IsSafe, Left, VerdictValid, SortBy, SortedBy,
        AppliedTask, OpenedGates, ComesTo, AfterApplying, AppliesInOrder, EndedStays, IsApplied;
      SortedWave(plan, work, state.tasks, leases.leases, now);
      var sorted := SortBy(ByTaskId, work);
      lost, done := None, [];
      assert sorted[0..] == sorted;
      NothingApplied(plan.contracts, state.tasks, sorted, results, now);
      for i := 0 to |sorted|
        invariant MidWave(sorted[i..]) && old(now) <= now && |done| == i
        invariant RoundsLeft() + i <= old(RoundsLeft())
        invariant AppliesInOrder(sorted, results, done, old(now), now)
        invariant state.tasks == AfterApplying(plan.contracts, old(state.tasks), done) && EndedStays(old(state.tasks), state.tasks)
      {
        assert sorted[i] in sorted;
        assert sorted[i..][1..] == sorted[i + 1..];
        ghost var tasks := state.tasks;
        ghost var mid := now;
        FirstOfWave(plan, sorted[i..], tasks);
        var released, final, at := ApplyResult(sorted[i..], results[sorted[i].contract.taskId]);
        OneMoreApplied(plan.contracts, old(state.tasks), sorted, results, done, Settlement(sorted[i].contract.taskId, final, at), old(now), mid, now);
        AppliedIsOneTask(plan, sorted[i..], tasks, final, at);
        EndedStaysTwice(old(state.tasks), tasks, state.tasks);
        done := done + [Settlement(sorted[i].contract.taskId, final, at)];
        if !released {
          return Some(sorted[i]), done;
        }
      }
      assert sorted[|sorted|..] == [];
    }

    // ----- The main loop -----

    ghost function RoundsOnDisk(): int
      requires DiskOk() && disk.Some?
      reads this
    {
      SoundKeys(plan, disk.value, diskRecoveries, disk.value.updatedAt);
      Left(plan, disk.value.tasks)
    }

    method SetActivity(activeAgents: set<string>, phase: Phase)
      requires Sound()
      modifies this`state
      ensures Sound() && state == old(state).(activeAgents := activeAgents, phase := phase)
    {
      hide SoundState, AllNamed;
      NotesKeepSound(plan, state, recoveries, now, state.blockers, state.decisions, activeAgents, phase);
      state := state.(activeAgents := activeAgents, phase := phase);
    }

    /** Runs a formed wave between two checkpoints. */
    method RunWave(f: WaveSoFar) returns (r: RoundResult)
      requires MidWave(f.work) && f.work != [] && IsRestful(state.tasks) && DiskOk() && disk.Some?
      modifies this`state, this`now, this`disk, this`diskRecoveries, this`answers, leases
      ensures old(now) <= now && Sound() && DiskOk() && disk.Some?
      ensures EndedStays(old(state.tasks), state.tasks) && (disk == old(disk) || EndedStays(old(state.tasks), disk.value.tasks))
      ensures r.Stopped? ==> r.outcome.OutOfBudget? || r.outcome.Interrupted? || r.outcome.LeaseLost?
      ensures answers == AnsweredBy(old(answers), r)
      ensures r.WaveDone? ==> BetweenWaves() && disk == Some(state) && RoundsLeft() < old(RoundsLeft())
      ensures !r.WaveDone? ==>
                && r.Stopped? && IsAbrupt(r.outcome) && Justifies(plan, agents, state, now, 0, None, r.outcome)
                && (RoundsOnDisk() <= old(RoundsOnDisk()) || RoundsOnDisk() <= old(RoundsLeft()))
    {
      hide SoundState, PlanValid, AllNamed, GatesExact, WaveShape, RunningExactly, IsTableOf, IsSafe, Left, VerdictValid, CheckpointOk,
        IsRestful, IsIdle, AppliesInOrder, AfterApplying, SortBy, EndedStays, IsApplied;
      EndedStaysItself(state.tasks);
      SetActivity(f.active, Executing);
      var written := Checkpoint();
      if !written {
        return Stopped(OutOfBudget);
      }
      var interrupted := IsInterrupted();
      if interrupted {
        return Stopped(Interrupted);
      }
      LaterTableStays(leases.leases, f.work, old(now), now);
      var results := ExecuteWave(f.work);
      var lost, done := ApplyAll(f.work, results);
      if lost.Some? {
        return Stopped(LeaseLost(lost.value));
      }
      SetActivity({}, Integrating);
      NoneRunningIsIdle(state.tasks, leases.leases, now);
      IdleIsRestful(state.tasks);
      written := Checkpoint();
      r := if written then WaveDone else Stopped(OutOfBudget);
    }

    /** One pass of the main loop: a wave, other progress, or the end of the run. It gives up exactly when no task was
        leased, none was skipped, and no failure is left to propagate once leasing is over. */
    method Round() returns (r: RoundResult, ghost pass: Pass)
      requires BetweenWaves() && disk == Some(state) && !AllTerminal(state.tasks)
      modifies this`state, this`now, this`disk, this`diskRecoveries, this`answers, leases
      ensures old(now) <= now && Sound() && DiskOk() && disk.Some?
      ensures EndedStays(old(state.tasks), state.tasks) && EndedStays(old(state.tasks), disk.value.tasks)
      ensures !r.Stopped? ==> BetweenWaves() && disk == Some(state) && RoundsLeft() < old(RoundsLeft())
      ensures r.Stopped? ==>
                && IsAbrupt(r.outcome) && Justifies(plan, agents, state, now, 0, None, r.outcome)
                && RoundsOnDisk() <= old(RoundsLeft())
      ensures answers == AnsweredBy(old(answers), r)
      ensures IsPass(plan, agents, old(state.tasks), pass) && TasksOk(plan.contracts, pass.marked, recoveries)
      ensures |pass.wave.work| < plan.maxWorkers && !(r.Stopped? && r.outcome.UnauthorisedPath?) ==> AllTried(pass)
      ensures pass.wave.work == [] && !(r.Stopped? && r.outcome.UnauthorisedPath?) ==>
                OnlyFailed(plan.contracts, pass.leased, state.tasks) && NothingToPropagate(plan.contracts, state.tasks)
      ensures r.Stopped? && r.outcome.NoProgress? <==>
                pass.wave.work == [] && pass.skipped == pass.marked && NothingToPropagate(plan.contracts, pass.leased)
                && !(r.Stopped? && r.outcome.UnauthorisedPath?)
      ensures r.Stopped? && r.outcome.NoProgress? ==>
                state.tasks == pass.leased && r.outcome == NoProgress(pass.wave.noAgent, pass.wave.overBudget)
    {
      hide SoundState, TasksOk, PlanValid, AllNamed, GatesExact, WaveShape, RunningExactly, IsTableOf, IsSafe, Left, CheckpointOk, IsRestful, IsIdle,
        OnlyMarked, AllMarked, OnlySkipped, OnlyFailed, NothingToPropagate, Forming, WaveIds, WaveOk, AllTerminal, IsStalled,
        NoneWaitingForWork, OnlyLeased, IsComplete, EndedStays, IsPass, NoAgentFor, HasBadPath, IsApplied, AllTried;
      ghost var tasks := state.tasks;
      MarkReady();
      MarkedKeepsGatesAndRest(plan, state.gates, tasks, state.tasks);
      MarkingKeepsOpen(tasks, state.tasks);
      ghost var marked := state.tasks;
      SoundTasks(plan, state, recoveries, now);
      var changed := SkipOptional();
      SkippedKeepsGatesAndRest(plan, state.gates, marked, state.tasks);
      ghost var skipped := state.tasks;
      EndedStaysTwice(tasks, marked, skipped);
      var f, ids, n, unauthorised := FormWave();
      pass := Pass(marked, skipped, state.tasks, f);
      PassFormed(plan, agents, ids, n, tasks, marked, skipped, state.tasks, leases.leases, now, f);
      FormedWave(plan, agents, state.gates, ids, n, skipped, state.tasks, leases.leases, now, f);
      EndedStaysTwice(tasks, skipped, state.tasks);
      EndedStaysItself(tasks);
      if unauthorised.Some? {
        return Stopped(UnauthorisedPath(unauthorised.value)), pass;
      }
      ghost var leased := state.tasks;
      if f.work != [] {
        r := RunWave(f);
        EndedStaysTwice(tasks, leased, state.tasks);
        if disk != old(disk) {
          EndedStaysTwice(tasks, leased, disk.value.tasks);
        }
        return;
      }
      SoundWorkers(plan, state, recoveries, now);
      FormedNothing(plan, agents, ids, skipped, state.tasks, leases.leases, now, f);
      NoneRunningIsIdle(state.tasks, leases.leases, now);
      r := WithoutWave(f, changed, skipped);
      EndedStaysTwice(tasks, leased, state.tasks);
      if disk != old(disk) {
        EndedStaysTwice(tasks, leased, disk.value.tasks);
      }
    }

    /** No task could be leased: propagates failures, and gives up exactly when nothing has changed before and there is
        nothing to propagate. An escalation over budget is no change. */
    method WithoutWave(f: WaveSoFar, changed: bool, ghost before: Tasks) returns (r: RoundResult)
      requires BetweenWaves() && disk.Some? && f.work == [] && NoAgentFor(plan, agents, f.noAgent)
      requires OnlyLeased(before, state.tasks, [], f.overBudget) && NoneWaitingForWork(before, f.noAgent, f.overBudget)
      requires forall t | t in f.noAgent :: t in before && before[t].status == Ready && t !in f.overBudget
      requires !changed ==> IsIdle(before) && AllMarked(plan.contracts, before) && !AllTerminal(before)
      requires before.Keys == plan.contracts.Keys
      modifies this`state, this`now, this`disk, this`diskRecoveries, this`answers
      ensures old(now) <= now && Sound() && DiskOk() && disk.Some?
      ensures EndedStays(old(state.tasks), state.tasks) && (disk == old(disk) || EndedStays(old(state.tasks), disk.value.tasks))
      ensures answers == AnsweredBy(old(answers), r)
      ensures OnlyFailed(plan.contracts, old(state.tasks), state.tasks) && NothingToPropagate(plan.contracts, state.tasks)
      ensures r.OtherProgress? ==> BetweenWaves() && disk == Some(state) && (changed || RoundsLeft() < old(RoundsLeft())) && RoundsLeft() <= old(RoundsLeft())
      ensures !r.OtherProgress? ==>
                && r.Stopped? && IsAbrupt(r.outcome) && Justifies(plan, agents, state, now, 0, None, r.outcome)
                && (RoundsOnDisk() <= old(RoundsOnDisk()) || RoundsOnDisk() <= old(RoundsLeft()))
      ensures r == Stopped(NoProgress(f.noAgent, f.overBudget)) <==> !changed && old(NothingToPropagate(plan.contracts, state.tasks))
      ensures r.Stopped? && r.outcome.NoProgress? ==> state.tasks == old(state.tasks) && r == Stopped(NoProgress(f.noAgent, f.overBudget))
      ensures r.Stopped? ==> r.outcome.NoProgress? || r.outcome.OutOfBudget? || r.outcome.Interrupted?
    {
      hide SoundState, PlanValid, AllNamed, GatesExact, IsSafe, Left, CheckpointOk, IsRestful, IsIdle, AllMarked, OnlyFailed,
        NothingToPropagate, AllTerminal, IsStalled, NoneWaitingForWork, OnlyLeased, EndedStays, NoAgentFor;
      ghost var leased := state.tasks;
      var propagated := Propagate();
      FailedKeepsGatesAndRest(plan, state.gates, leased, state.tasks);
      if propagated || changed {
        IdleIsRestful(state.tasks);
        var written := Checkpoint();
        if !written {
          return Stopped(OutOfBudget);
        }
        var interrupted := IsInterrupted();
        return if interrupted then Stopped(Interrupted) else OtherProgress;
      }
      SoundHandoffs(plan, state, recoveries, now);
      GivingUpMeansStalled(plan, agents, before, state.tasks, f.noAgent, f.overBudget);
      return Stopped(NoProgress(f.noAgent, f.overBudget));
    }

    /** Advances the workflow until it ends, pauses or raises. However it ends, the checkpoint on disk
        loads, and the completed waves and the rounds left on disk never exceed the rounds left at the start. */
    method Run(maxWaves: Option<nat>) returns (outcome: Outcome, waves: nat)
      requires BetweenWaves() && disk == Some(state)
      modifies this`state, this`now, this`disk, this`diskRecoveries, this`answers, leases
      ensures old(now) <= now && Sound() && DiskOk() && disk.Some?
      ensures EndedStays(old(state.tasks), state.tasks) && EndedStays(old(state.tasks), disk.value.tasks)
      ensures waves + RoundsOnDisk() <= old(RoundsLeft()) && RoundsOnDisk() >= 0
      ensures Justifies(plan, agents, state, now, waves, maxWaves, outcome) && answers == Answered(old(answers), outcome)
      ensures outcome.CompletedRun? || outcome.FailedRun? || outcome.Paused? ==> BetweenWaves() && disk == Some(state)
      ensures outcome.CompletedRun? ==> FinalStandsOnCompleted(plan, state.tasks)
    {
      hide SoundState, PlanValid, AllNamed, GatesExact, IsSafe, Left, CheckpointOk, IsIdle, AllTerminal, IsStalled, IsComplete,
        IsRestful, EndedStays, FinalStandsOnCompleted, IsPass, NoAgentFor, NothingToPropagate, IsApplied, HasBadPath;
      waves := 0;
      LeftIsNat(plan, state, recoveries, now);
      EndedStaysItself(state.tasks);
      while !AllTerminal(state.tasks)
        invariant BetweenWaves() && disk == Some(state) && old(now) <= now && EndedStays(old(state.tasks), state.tasks)
        invariant waves + RoundsLeft() <= old(RoundsLeft()) && RoundsLeft() >= 0
        invariant (maxWaves.Some? ==> waves <= maxWaves.value) && answers == old(answers)
        decreases RoundsLeft()
      {
        if maxWaves.Some? && waves >= maxWaves.value {
          outcome := Paused;
          return;
        }
        ghost var tasks := state.tasks;
        var r, _ := Round();
        EndedStaysTwice(old(state.tasks), tasks, state.tasks);
        EndedStaysTwice(old(state.tasks), tasks, disk.value.tasks);
        DiskIsNat();
        match r
        case WaveDone => waves := waves + 1;
        case OtherProgress =>
        case Stopped(o) =>
          outcome := o;
          return;
      }
      outcome := if IsComplete(plan, state) then CompletedRun else FailedRun;
      ghost var before := state;
      SetActivity(state.activeAgents, if IsComplete(plan, state) then PhaseCompleted else PhaseFailed);
      IdleIsRestful(state.tasks);
      var written := Checkpoint();
      DiskIsNat();
      SameCompletion(plan, before, state);
      if !written {
        outcome := OutOfBudget;
      }
      if outcome.CompletedRun? {
        CompletedFinal(plan, state, recoveries, now);
      }
    }

    lemma DiskIsNat()
      requires DiskOk() && disk.Some?
      ensures RoundsOnDisk() >= 0
    {
      hide SoundState, GatesExact, IsRestful;
      LeftIsNat(plan, disk.value, diskRecoveries, disk.value.updatedAt);
    }

    /** A run that is stopped and resumed any number of times. The waves completed in all its lives never
        exceed the attempts granted to all tasks together, and what is on disk always loads. */
    static method RunWithCrashes(plan: Plan, agents: seq<AgentDefinition>, createdAt: Time, lives: nat)
      returns (s: Supervisor, outcome: Outcome, waves: nat)
      requires PlanValid(plan) && AllNamed(agents)
      ensures s.plan == plan && s.DiskOk()
      ensures forall t | t in plan.order :: t in plan.contracts
      ensures waves <= AttemptBudget(plan.order, plan.contracts)
      ensures s.answers == Answered(Answers(0, 0), outcome)
      ensures outcome.CompletedRun? ==> IsComplete(plan, s.state) && s.BetweenWaves() && s.disk == Some(s.state)
    {
      hide SoundState, PlanValid, AllNamed, GatesExact, IsSafe, Left, CheckpointOk, IsIdle, IsRestful, IsComplete, AllTerminal,
        AllRecovered, AfterCrash, IsStalled, InitialTasks, NoRecoveries, AttemptBudget;
      var written;
      s, written := Create(plan, agents, createdAt);
      LeftIsNat(plan, s.state, s.recoveries, s.now);
      outcome, waves := OutOfBudget, 0;
      if !written {
        return;
      }
      outcome, waves := s.Run(None);
      ghost var budget := AttemptBudget(plan.order, plan.contracts);
      for life := 0 to lives
        invariant fresh(s) && fresh(s.leases) && s.plan == plan && s.agents == agents && s.DiskOk() && s.disk.Some?
        invariant waves + s.RoundsOnDisk() <= budget && s.RoundsOnDisk() >= 0
        invariant s.answers == Answered(Answers(0, 0), outcome)
        invariant outcome.CompletedRun? ==> IsComplete(plan, s.state) && s.BetweenWaves() && s.disk == Some(s.state)
      {
        if outcome.CompletedRun? || outcome.FailedRun? {
          return;
        }
        var more;
        s, outcome, more := NextLife(s);
        waves := waves + more;
      }
    }

    /** Resumes from what a stopped run left on disk, and runs again. */
    static method NextLife(dead: Supervisor) returns (s: Supervisor, outcome: Outcome, waves: nat)
      requires dead.DiskOk() && dead.disk.Some? && AllNamed(dead.agents)
      ensures fresh(s) && fresh(s.leases) && s.plan == dead.plan && s.agents == dead.agents && s.DiskOk() && s.disk.Some?
      ensures 0 <= waves + s.RoundsOnDisk() <= dead.RoundsOnDisk() && s.RoundsOnDisk() >= 0
      ensures EndedStays(dead.disk.value.tasks, s.disk.value.tasks)
      ensures s.answers == Answered(Answers(0, 0), outcome)
      ensures outcome.CompletedRun? ==> IsComplete(s.plan, s.state) && s.BetweenWaves() && s.disk == Some(s.state)
    {
      hide SoundState, PlanValid, AllNamed, GatesExact, IsSafe, Left, CheckpointOk, IsIdle, IsRestful, IsComplete, AllTerminal,
        AllRecovered, AfterCrash, IsStalled, EndedStays;
      var checkpoint := dead.disk.value;
      assert checkpoint.updatedAt <= checkpoint.updatedAt;
      var start :| checkpoint.updatedAt <= start;
      var written;
      s, written := Resume(dead.plan, dead.agents, checkpoint, start, dead.diskRecoveries);
      RecoveryKeepsLeft(dead.plan, checkpoint, dead.diskRecoveries, s.state, s.recoveries, s.now);
      RecoveryKeepsEnded(checkpoint.tasks, s.state.tasks);
      EndedStaysItself(checkpoint.tasks);
      s.DiskIsNat();
      if !written {
        return s, OutOfBudget, 0;
      }
      ghost var recovered := s.state.tasks;
      outcome, waves := s.Run(None);
      EndedStaysTwice(checkpoint.tasks, recovered, s.disk.value.tasks);
    }
  }
}
