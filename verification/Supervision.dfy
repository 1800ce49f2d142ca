/** What holds of the supervisor's state at every moment, and the steps that keep it so. */
module Supervision {
  import opened Wrappers
  import opened Ordering
  import opened Lifecycle
  import opened Workflow

  // ----- What holds of the supervisor's state -----

  /** The log, the handoffs and the artifact table. */
  ghost predicate BooksOk(p: Plan, s: WorkflowState, now: Time) {
    && s.workflowId == p.workflowId
    && LogCurrent(s, now)
    && HandoffsValid(s.handoffs)
    && forall id | id in s.artifacts :: s.artifacts[id].artifactId == id
  }

  ghost predicate SoundState(p: Plan, s: WorkflowState, rec: Recoveries, now: Time) {
    PlanValid(p) && TasksOk(p.contracts, s.tasks, rec) && BooksOk(p, s, now)
  }

  /** Nothing is leased, under validation or half escalated when a checkpoint is written. */
  predicate IsRestful(tasks: Tasks) {
    forall t | t in tasks :: tasks[t].status !in {Leased, Validating, Blocked}
  }

  ghost predicate CheckpointOk(p: Plan, s: WorkflowState, rec: Recoveries) {
    SoundState(p, s, rec, s.updatedAt) && GatesExact(p, s.gates, s.tasks) && IsRestful(s.tasks)
  }

  lemma WorkersBounded(p: Plan)
    requires PlanValid(p)
    ensures 1 <= p.maxWorkers <= 3
  {
  }

  lemma IdleIsRestful(tasks: Tasks)
    requires IsIdle(tasks)
    ensures IsRestful(tasks)
  {
  }

  lemma TaskIsOk(cs: Contracts, tasks: Tasks, rec: Recoveries, id: TaskId)
    requires TasksOk(cs, tasks, rec) && id in tasks
    ensures id in cs && id in rec && TaskOk(cs[id], tasks[id], rec[id], tasks)
  {
  }

  lemma SoundKeys(p: Plan, s: WorkflowState, rec: Recoveries, now: Time)
    requires SoundState(p, s, rec, now)
    ensures PlanValid(p) && s.tasks.Keys == p.contracts.Keys == rec.Keys
    ensures Distinct(p.order) && forall t :: t in p.order <==> t in s.tasks
    ensures forall t | t in s.tasks :: s.tasks[t].taskId == t && p.contracts[t].taskId == t
  {
    hide BooksOk;
    assert forall t :: t in p.order <==> t in AllDependencies(p.contracts);
    forall t | t in s.tasks ensures s.tasks[t].taskId == t {
      TaskIsOk(p.contracts, s.tasks, rec, t);
    }
  }

  lemma SoundTasks(p: Plan, s: WorkflowState, rec: Recoveries, now: Time)
    requires SoundState(p, s, rec, now)
    ensures TasksOk(p.contracts, s.tasks, rec)
  {
    hide PlanValid, TasksOk, BooksOk;
  }

  lemma SoundTaskFlags(p: Plan, s: WorkflowState, rec: Recoveries, now: Time, id: TaskId)
    requires SoundState(p, s, rec, now) && id in s.tasks
    ensures id in p.contracts && s.tasks[id].optional == p.contracts[id].optional
    ensures s.tasks[id].retryCount < p.contracts[id].maxAttempts
  {
    hide PlanValid, BooksOk, TaskValid, DependenciesDone;
    TaskIsOk(p.contracts, s.tasks, rec, id);
  }

  lemma SoundContract(p: Plan, s: WorkflowState, rec: Recoveries, now: Time, id: TaskId)
    requires SoundState(p, s, rec, now) && id in p.contracts
    ensures ContractValid(p.contracts[id])
  {
    hide BooksOk, TasksOk, ContractValid;
  }

  /** A checkpoint passes every validator that reading it back applies, and fits the workflow's graph. */
  lemma CheckpointLoads(p: Plan, s: WorkflowState, rec: Recoveries)
    requires CheckpointOk(p, s, rec)
    ensures SnapshotValid(s) && s.tasks.Keys == p.contracts.Keys && s.workflowId == p.workflowId
  {
    hide PlanValid, LogValid, TaskValid, GatesExact;
    forall id | id in s.tasks ensures s.tasks[id].taskId == id && TaskValid(s.tasks[id]) {
      TaskIsOk(p.contracts, s.tasks, rec, id);
      SoundKeys(p, s, rec, s.updatedAt);
    }
  }

  /** In a checkpoint: dependencies are done wherever they must be, retries are bounded, and attempts are exactly the retried
      ones, those a crash cut short, and the one at hand. So they exceed their maximum exactly when crashes cut short more
      than the retries leave. */
  lemma CheckpointPrecedence(p: Plan, s: WorkflowState, rec: Recoveries, id: TaskId)
    requires CheckpointOk(p, s, rec) && id in s.tasks
    ensures id in p.contracts && id in rec
    ensures HasStarted(s.tasks[id].status) ==> DependenciesDone(p.contracts[id], s.tasks)
    ensures s.tasks[id].retryCount < p.contracts[id].maxAttempts
    ensures var t := s.tasks[id];
            && (IsUnderWay(t.status) || t.status == Completed ==> t.attemptCount == t.retryCount + rec[id] + 1)
            && (IsWaiting(t.status) || t.status == Cancelled ==> t.attemptCount == t.retryCount + rec[id])
            && (t.status == Escalated ==> t.attemptCount - t.retryCount - rec[id] in {0, 1})
            && t.attemptCount <= p.contracts[id].maxAttempts + rec[id]
  {
    hide BooksOk, PlanValid, GatesExact, TaskValid;
    TaskIsOk(p.contracts, s.tasks, rec, id);
  }

  // ----- The snapshots a step produces -----

  function StatusName(s: Status): string {
    match s
    case Pending => "pending" case Ready => "ready" case Leased => "leased" case Running => "running"
    case Validating => "validating" case Completed => "completed" case Retry => "retry" case Blocked => "blocked"
    case Escalated => "escalated" case Cancelled => "cancelled"
  }

  function EnteredMessage(s: Status): (r: string)
    ensures r != ""
  {
    "task entered " + StatusName(s)
  }

  function MovedState(s: WorkflowState, id: TaskId, target: Status, d: Details, at: Time, end: Time): WorkflowState
    requires id in s.tasks
  {
    var t := s.tasks[id];
    var moved := ReplaceTask(s, Move(t, target, d, at));
    AppendEvent(moved, NextEvent(moved, StatusTransition, Some(id), Some(t.status), Some(target),
                                 d.error.GetOr(Some(EnteredMessage(target))), end))
  }

  predicate SameLedgers(a: WorkflowState, b: WorkflowState) {
    && a.gates == b.gates && a.artifacts == b.artifacts && a.handoffs == b.handoffs
    && a.activeAgents == b.activeAgents && a.checkpointSequence == b.checkpointSequence && a.phase == b.phase
    && a.log.events <= b.log.events
  }

  lemma SameLedgersReflexive(a: WorkflowState)
    ensures SameLedgers(a, a)
  {
  }

  lemma SameLedgersTransitive(a: WorkflowState, b: WorkflowState, c: WorkflowState)
    requires SameLedgers(a, b) && SameLedgers(b, c)
    ensures SameLedgers(a, c)
  {
  }

  predicate SameNotes(a: WorkflowState, b: WorkflowState) {
    a.blockers == b.blockers && a.decisions == b.decisions
  }

  lemma LogStaysCurrent(s: WorkflowState, s': WorkflowState, now: Time, later: Time)
    requires LogCurrent(s, now) && now <= later
    requires s'.log == s.log && s'.workflowId == s.workflowId && s'.updatedAt <= later
    ensures LogCurrent(s', later)
  {
    hide LogValid;
  }

  lemma BooksStayOk(p: Plan, s: WorkflowState, s': WorkflowState, now: Time, later: Time)
    requires BooksOk(p, s, now) && now <= later
    requires s'.log == s.log && s'.workflowId == s.workflowId && s'.updatedAt <= later
    requires s'.handoffs == s.handoffs && s'.artifacts == s.artifacts
    ensures BooksOk(p, s', later)
  {
    hide LogCurrent, HandoffsValid;
    LogStaysCurrent(s, s', now, later);
  }

  lemma RecordingKeepsBooks(p: Plan, s: WorkflowState, kind: EventKind, taskId: Option<TaskId>, previous: Option<Status>,
                            next: Option<Status>, message: Option<string>, before: Time, at: Time)
    requires BooksOk(p, s, before) && before <= at && NotEmpty(message)
    requires kind == StatusTransition ==> taskId.Some? && previous.Some? && next.Some?
    requires kind != StatusTransition ==> previous.None? && next.None?
    ensures var e := NextEvent(s, kind, taskId, previous, next, message, at);
            MayAppend(s.log, e) && BooksOk(p, AppendEvent(s, e), at)
  {
    hide LogCurrent, HandoffsValid, MayAppend;
    RecordingKeepsLogCurrent(s, kind, taskId, previous, next, message, before, at);
  }

  lemma MoveHasNoEmptyText(c: TaskContract, t: WorkflowTask, tasks: Tasks, target: Status, d: Details)
    requires IsSupervisorMove(c, t, tasks, target, d)
    ensures NotEmpty(d.error)
  {
  }

  lemma MovedStateIsSound(p: Plan, s: WorkflowState, rec: Recoveries, now: Time, id: TaskId, target: Status, d: Details, at: Time, end: Time)
    requires SoundState(p, s, rec, now) && id in s.tasks && now <= at <= end
    requires id in p.contracts && IsSupervisorMove(p.contracts[id], s.tasks[id], s.tasks, target, d)
    ensures SoundState(p, MovedState(s, id, target, d, at, end), rec, end)
    ensures MovedState(s, id, target, d, at, end).tasks == s.tasks[id := Move(s.tasks[id], target, d, at)]
  {
    hide PlanValid, TasksOk, BooksOk, IsSupervisorMove, EnteredMessage;
    MoveHasNoEmptyText(p.contracts[id], s.tasks[id], s.tasks, target, d);
    SoundKeys(p, s, rec, now);
    SupervisorMoveKeepsTasksOk(p.contracts, s.tasks, rec, id, target, d, at);
    var moved := ReplaceTask(s, Move(s.tasks[id], target, d, at));
    BooksStayOk(p, s, moved, now, at);
    RecordingKeepsBooks(p, moved, StatusTransition, Some(id), Some(s.tasks[id].status), Some(target),
                        d.error.GetOr(Some(EnteredMessage(target))), at, end);
  }

  lemma LaterIsStillSound(p: Plan, s: WorkflowState, rec: Recoveries, now: Time, later: Time)
    requires SoundState(p, s, rec, now) && now <= later
    ensures SoundState(p, s, rec, later)
  {
    hide PlanValid, TasksOk;
    assert s.updatedAt <= now;
    BooksStayOk(p, s, s, now, later);
  }

  /** Blockers, decisions, active agents and the phase are free text to the validators. */
  lemma NotesKeepSound(p: Plan, s: WorkflowState, rec: Recoveries, now: Time,
                       blockers: seq<string>, decisions: seq<string>, activeAgents: set<string>, phase: Phase)
    requires SoundState(p, s, rec, now)
    ensures SoundState(p, s.(blockers := blockers, decisions := decisions, activeAgents := activeAgents, phase := phase), rec, now)
  {
    hide PlanValid, TasksOk;
    assert s.updatedAt <= now;
    BooksStayOk(p, s, s.(blockers := blockers, decisions := decisions, activeAgents := activeAgents, phase := phase), now, now);
  }

  lemma ArtifactKeepsSound(p: Plan, s: WorkflowState, rec: Recoveries, now: Time, a: Artifact)
    requires SoundState(p, s, rec, now)
    ensures SoundState(p, s.(artifacts := s.artifacts[a.artifactId := a]), rec, now)
  {
    hide PlanValid, TasksOk, HandoffsValid, LogValid;
  }

  lemma HandoffsKeepSound(p: Plan, s: WorkflowState, rec: Recoveries, now: Time, handoffs: seq<Handoff>)
    requires SoundState(p, s, rec, now) && HandoffsValid(handoffs)
    ensures SoundState(p, s.(handoffs := handoffs), rec, now)
  {
    hide PlanValid, TasksOk, HandoffsValid, LogValid;
  }

  lemma SoundHandoffs(p: Plan, s: WorkflowState, rec: Recoveries, now: Time)
    requires SoundState(p, s, rec, now)
    ensures PlanValid(p) && HandoffsValid(s.handoffs)
  {
  }

  lemma GatesKeepSound(p: Plan, s: WorkflowState, rec: Recoveries, now: Time, gates: map<string, bool>)
    requires SoundState(p, s, rec, now)
    ensures SoundState(p, s.(gates := gates), rec, now)
  {
    hide PlanValid, TasksOk, HandoffsValid, LogValid;
  }

  // ----- Moves that are always allowed where the supervisor makes them -----

  function FailureDetails(error: string, category: FailureCategory): Details {
    PLAIN.(error := Some(error), category := Some(category))
  }

  function BlockingDetails(error: string, category: FailureCategory): Details {
    FailureDetails(error, category).(blocker := Some(error))
  }

  /** Blocked and at once escalated. */
  function Escalate(t: WorkflowTask, error: string, category: FailureCategory, at: Time): WorkflowTask {
    t.(status := Escalated, lease := None, completedAt := None, updatedAt := at, blocker := None,
       lastError := Some(error), category := Some(category), noArtifactReason := None)
  }

  predicate MayEscalate(s: Status) {
    IsWaiting(s) || s == Validating
  }

  lemma EscalationIsAllowed(c: TaskContract, t: WorkflowTask, tasks: Tasks, tasks': Tasks, error: string, category: FailureCategory, at: Time)
    requires MayEscalate(t.status) && error != ""
    ensures IsSupervisorMove(c, t, tasks, Blocked, BlockingDetails(error, category))
    ensures IsSupervisorMove(c, Move(t, Blocked, BlockingDetails(error, category), at), tasks', Escalated, FailureDetails(error, category))
  {
  }

  lemma EscalationIsTwoMoves(t: WorkflowTask, error: string, category: FailureCategory, at1: Time, at2: Time)
    ensures Move(Move(t, Blocked, BlockingDetails(error, category), at1), Escalated, FailureDetails(error, category), at2)
         == Escalate(t, error, category, at2)
  {
  }

  predicate IsEscalation(before: WorkflowTask, after: WorkflowTask) {
    after.lastError.Some? && after.category.Some? && after == Escalate(before, after.lastError.value, after.category.value, after.updatedAt)
  }

  lemma EscalateIsEscalation(t: WorkflowTask, error: string, category: FailureCategory, at: Time)
    ensures IsEscalation(t, Escalate(t, error, category, at))
  {
  }

  lemma MarkingIsAllowed(c: TaskContract, t: WorkflowTask, tasks: Tasks)
    requires t.status == Pending || t.status == Retry
    requires DependenciesDone(c, tasks)
    ensures IsSupervisorMove(c, t, tasks, Ready, PLAIN)
  {
  }

  lemma SkippingIsAllowed(c: TaskContract, t: WorkflowTask, tasks: Tasks, reason: string)
    requires t.status == Ready && t.optional && reason != ""
    ensures IsSupervisorMove(c, t, tasks, Cancelled, PLAIN.(reason := Some(reason)))
  {
  }

  lemma LeasingIsAllowed(c: TaskContract, t: WorkflowTask, tasks: Tasks, tasks': Tasks, lease: TaskLease, at: Time)
    requires t.status == Ready && lease.acquiredAt < lease.expiresAt
    ensures IsSupervisorMove(c, t, tasks, Leased, PLAIN.(lease := Some(lease)))
    ensures IsSupervisorMove(c, Move(t, Leased, PLAIN.(lease := Some(lease)), at), tasks', Running, PLAIN)
  {
  }

  lemma ValidatingIsAllowed(c: TaskContract, t: WorkflowTask, tasks: Tasks)
    requires t.status == Running
    ensures IsSupervisorMove(c, t, tasks, Validating, PLAIN)
  {
  }

  lemma CompletingIsAllowed(c: TaskContract, t: WorkflowTask, tasks: Tasks, outputs: seq<string>, reason: Option<string>)
    requires t.status == Validating && Distinct(outputs) && (outputs != [] ==> reason.None?) && NotEmpty(reason)
    ensures IsSupervisorMove(c, t, tasks, Completed, PLAIN.(outputs := Some(outputs), reason := reason))
  {
  }

  lemma RetryingIsAllowed(c: TaskContract, t: WorkflowTask, tasks: Tasks, error: string, category: FailureCategory)
    requires t.status == Validating && t.attemptCount < c.maxAttempts && error != ""
    ensures IsSupervisorMove(c, t, tasks, Retry, FailureDetails(error, category))
  {
  }

  // ----- Work left -----

  function Left(p: Plan, tasks: Tasks): int
    requires forall t | t in p.order :: t in p.contracts && t in tasks
  {
    WorkLeft(p.order, p.contracts, tasks)
  }

  lemma LeftAfter(p: Plan, s: WorkflowState, rec: Recoveries, now: Time, id: TaskId, t: WorkflowTask)
    requires SoundState(p, s, rec, now) && id in s.tasks
    ensures forall k | k in p.order :: k in p.contracts && k in s.tasks
    ensures id in p.contracts
    ensures Left(p, s.tasks[id := t]) == Left(p, s.tasks) - Outstanding(p.contracts[id], s.tasks[id]) + Outstanding(p.contracts[id], t)
    ensures Outstanding(p.contracts[id], s.tasks[id]) >= (if IsTerminal(s.tasks[id].status) then 0 else 1)
  {
    hide PlanValid, TasksOk, BooksOk, TaskValid, DependenciesDone;
    SoundKeys(p, s, rec, now);
    TaskIsOk(p.contracts, s.tasks, rec, id);
    WorkLeftAfter(p.order, p.contracts, s.tasks, id, t);
  }

  /** Ready or not, an open task keeps its rounds. */
  lemma OpenMovesKeepRounds(c: TaskContract, t: WorkflowTask, target: Status, d: Details, at: Time)
    requires !IsTerminal(t.status) && !IsTerminal(target) && target != Retry
    ensures Outstanding(c, Move(t, target, d, at)) == Outstanding(c, t)
  {
  }

  lemma LeftIsNat(p: Plan, s: WorkflowState, rec: Recoveries, now: Time)
    requires SoundState(p, s, rec, now)
    ensures forall k | k in p.order :: k in p.contracts && k in s.tasks
    ensures 0 <= Left(p, s.tasks) <= AttemptBudget(p.order, p.contracts)
  {
    SoundKeys(p, s, rec, now);
    WorkLeftWithinBudget(p.order, p.contracts, s.tasks, rec);
  }

  // ----- Starting -----

  function InitialTask(c: TaskContract, at: Time): WorkflowTask {
    WorkflowTask(c.taskId, c.optional, Pending, 0, 0, None, None, None, at, [], None, None, None, None)
  }

  function ClosedGates(gates: seq<Gate>): (r: map<string, bool>)
    ensures r.Keys == (set g | g in gates :: g.gateId) && forall id | id in r :: !r[id]
  {
    if gates == [] then map[]
    else
      assert gates == [gates[0]] + gates[1..];
      ClosedGates(gates[1..])[gates[0].gateId := false]
  }

  function InitialTasks(cs: Contracts, createdAt: Time): Tasks {
    map t | t in cs :: InitialTask(cs[t], createdAt)
  }

  function InitialState(p: Plan, createdAt: Time): WorkflowState {
    WorkflowState(p.workflowId, 0, createdAt, PhaseReady, {}, ClosedGates(p.gates), [], [], 0,
                  InitialTasks(p.contracts, createdAt), map[], [], EventLog(p.workflowId, []))
  }

  function NoRecoveries(p: Plan): Recoveries {
    map t | t in p.contracts :: 0
  }

  lemma InitialTaskIsOk(c: TaskContract, createdAt: Time, tasks: Tasks)
    requires ContractValid(c)
    ensures TaskOk(c, InitialTask(c, createdAt), 0, tasks)
  {
  }

  lemma InitialTasksAreOk(p: Plan, createdAt: Time)
    requires PlanValid(p)
    ensures TasksOk(p.contracts, InitialTasks(p.contracts, createdAt), NoRecoveries(p))
  {
    hide TaskOk, InitialTask, ContractValid;
    var tasks := InitialTasks(p.contracts, createdAt);
    forall t | t in tasks ensures TaskOk(p.contracts[t], tasks[t], NoRecoveries(p)[t], tasks) {
      InitialTaskIsOk(p.contracts[t], createdAt, tasks);
    }
  }

  lemma InitialGatesAreExact(p: Plan, createdAt: Time)
    requires PlanValid(p)
    ensures GatesExact(p, ClosedGates(p.gates), InitialTasks(p.contracts, createdAt))
  {
    hide ContractValid;
    forall g | g in p.gates ensures g.taskId in p.contracts && g.gateId in ClosedGates(p.gates) {
    }
  }

  lemma InitialBooksAreOk(p: Plan, createdAt: Time)
    ensures BooksOk(p, InitialState(p, createdAt), createdAt)
  {
    hide InitialTasks, ClosedGates;
  }

  lemma InitialTasksAreIdle(cs: Contracts, createdAt: Time)
    ensures IsIdle(InitialTasks(cs, createdAt))
  {
  }

  lemma InitialStateIsSound(p: Plan, createdAt: Time)
    requires PlanValid(p)
    ensures SoundState(p, InitialState(p, createdAt), NoRecoveries(p), createdAt)
    ensures GatesExact(p, InitialState(p, createdAt).gates, InitialState(p, createdAt).tasks)
    ensures IsIdle(InitialState(p, createdAt).tasks)
  {
    hide TasksOk, NoRecoveries, PlanValid, GatesExact, InitialTasks, BooksOk, IsIdle;
    InitialTasksAreOk(p, createdAt);
    InitialGatesAreExact(p, createdAt);
    InitialBooksAreOk(p, createdAt);
    InitialTasksAreIdle(p.contracts, createdAt);
  }

  // ----- Checkpoints and recovery -----

  function CheckpointMessage(): (r: string)
    ensures r != ""
  {
    "atomic workflow checkpoint"
  }

  function CheckpointedState(s: WorkflowState, at: Time, end: Time): WorkflowState {
    var saved := s.(checkpointSequence := s.checkpointSequence + 1, updatedAt := at);
    AppendEvent(saved, NextEvent(saved, CheckpointSaved, None, None, None, Some(CheckpointMessage()), end))
  }

  lemma CheckpointedStateIsOk(p: Plan, s: WorkflowState, rec: Recoveries, now: Time, at: Time, end: Time)
    requires SoundState(p, s, rec, now) && GatesExact(p, s.gates, s.tasks) && IsRestful(s.tasks) && now <= at <= end
    ensures CheckpointOk(p, CheckpointedState(s, at, end), rec)
    ensures CheckpointedState(s, at, end).updatedAt == end && CheckpointedState(s, at, end).log.events[..|s.log.events|] == s.log.events
  {
    hide PlanValid, TasksOk, BooksOk, GatesExact, IsRestful, CheckpointMessage, MayAppend;
    var saved := s.(checkpointSequence := s.checkpointSequence + 1, updatedAt := at);
    BooksStayOk(p, s, saved, now, at);
    RecordingKeepsBooks(p, saved, CheckpointSaved, None, None, None, Some(CheckpointMessage()), at, end);
  }

  function InterruptedReason(): (r: string)
    ensures r != ""
  {
    "recovered from an interrupted checkpoint"
  }

  /** One more attempt cut short for every task that had one under way. */
  function AfterCrash(rec: Recoveries, tasks: Tasks): Recoveries {
    map t | t in rec :: if t in tasks then CutShort(tasks[t], rec[t]) else rec[t]
  }

  predicate IsRecovered(before: WorkflowTask, after: WorkflowTask) {
    if IsActive(before.status) then after == RecoverToReady(before, after.updatedAt, InterruptedReason()) else after == before
  }

  predicate AllRecovered(before: Tasks, after: Tasks) {
    before.Keys == after.Keys && forall t | t in before :: IsRecovered(before[t], after[t])
  }

  predicate PartlyRecovered(tasks: Tasks, rec: Recoveries, tasks': Tasks, rec': Recoveries, done: seq<TaskId>) {
    && tasks'.Keys == tasks.Keys == rec'.Keys == rec.Keys
    && (forall t | t in tasks && t in done :: IsRecovered(tasks[t], tasks'[t]) && rec'[t] == AfterCrash(rec, tasks)[t])
    && (forall t | t in tasks && t !in done :: tasks'[t] == tasks[t] && rec'[t] == rec[t])
  }

  lemma RecoverOne(p: Plan, s: WorkflowState, rec: Recoveries, now: Time, id: TaskId, at: Time)
    requires SoundState(p, s, rec, now) && id in s.tasks && id in rec && IsActive(s.tasks[id].status) && now <= at
    ensures var s' := ReplaceTask(s, RecoverToReady(s.tasks[id], at, InterruptedReason()));
            && SoundState(p, s', rec[id := CutShort(s.tasks[id], rec[id])], at)
            && s'.tasks == s.tasks[id := RecoverToReady(s.tasks[id], at, InterruptedReason())]
  {
    hide PlanValid, TasksOk, BooksOk, InterruptedReason;
    SoundKeys(p, s, rec, now);
    RecoveryKeepsTasksOk(p.contracts, s.tasks, rec, id, at, InterruptedReason());
    BooksStayOk(p, s, ReplaceTask(s, RecoverToReady(s.tasks[id], at, InterruptedReason())), now, at);
  }

  lemma PartlyRecoveredStart(tasks: Tasks, rec: Recoveries)
    requires tasks.Keys == rec.Keys
    ensures PartlyRecovered(tasks, rec, tasks, rec, [])
  {
    hide IsRecovered, AfterCrash;
  }

  lemma PartlyRecoveredKeys(tasks: Tasks, rec: Recoveries, tasks': Tasks, rec': Recoveries, done: seq<TaskId>)
    requires PartlyRecovered(tasks, rec, tasks', rec', done)
    ensures tasks'.Keys == tasks.Keys == rec'.Keys == rec.Keys
  {
    hide IsRecovered, AfterCrash;
  }

  lemma NotYetDone(order: seq<TaskId>, i: nat)
    requires Distinct(order) && i < |order|
    ensures order[i] in order && order[i] !in order[..i] && order[..i + 1] == order[..i] + [order[i]]
  {
  }

  lemma PartlyRecoveredStep(tasks: Tasks, rec: Recoveries, tasks': Tasks, rec': Recoveries, done: seq<TaskId>, id: TaskId, at: Time)
    requires PartlyRecovered(tasks, rec, tasks', rec', done) && id in tasks && id !in done && IsActive(tasks'[id].status)
    ensures PartlyRecovered(tasks, rec, tasks'[id := RecoverToReady(tasks'[id], at, InterruptedReason())], rec'[id := CutShort(tasks'[id], rec'[id])], done + [id])
  {
    hide InterruptedReason;
  }

  lemma PartlyRecoveredSkip(tasks: Tasks, rec: Recoveries, tasks': Tasks, rec': Recoveries, done: seq<TaskId>, id: TaskId)
    requires PartlyRecovered(tasks, rec, tasks', rec', done) && id in tasks && id !in done && !IsActive(tasks'[id].status)
    ensures PartlyRecovered(tasks, rec, tasks', rec', done + [id])
  {
    hide InterruptedReason;
  }

  lemma PartlyRecoveredDone(p: Plan, tasks: Tasks, rec: Recoveries, tasks': Tasks, rec': Recoveries)
    requires PartlyRecovered(tasks, rec, tasks', rec', p.order) && forall t :: t in p.order <==> t in tasks
    ensures AllRecovered(tasks, tasks') && rec' == AfterCrash(rec, tasks)
  {
    hide InterruptedReason, IsRecovered;
  }

  lemma RecoveredIsIdle(p: Plan, s: WorkflowState, tasks: Tasks)
    requires GatesExact(p, s.gates, s.tasks) && IsRestful(s.tasks) && AllRecovered(s.tasks, tasks)
    ensures GatesExact(p, s.gates, tasks) && IsIdle(tasks)
  {
    hide InterruptedReason;
    forall t | t in tasks ensures tasks[t].status == Completed <==> s.tasks[t].status == Completed {
      assert IsRecovered(s.tasks[t], tasks[t]);
    }
    forall t | t in tasks ensures !IsActive(tasks[t].status) && tasks[t].status != Blocked {
      assert IsRecovered(s.tasks[t], tasks[t]);
    }
  }

  lemma {:induction false} RecoveryKeepsWorkLeft(order: seq<TaskId>, cs: Contracts, before: Tasks, after: Tasks)
    requires forall t | t in order :: t in cs && t in before && t in after && IsRecovered(before[t], after[t])
    ensures WorkLeft(order, cs, after) == WorkLeft(order, cs, before)
  {
    hide InterruptedReason;
    if order != [] {
      RecoveryKeepsWorkLeft(order[1..], cs, before, after);
    }
  }

  /** Resuming leaves as many rounds as the checkpoint had. */
  lemma RecoveryKeepsLeft(p: Plan, s: WorkflowState, rec: Recoveries, s': WorkflowState, rec': Recoveries, now: Time)
    requires CheckpointOk(p, s, rec) && SoundState(p, s', rec', now) && AllRecovered(s.tasks, s'.tasks)
    ensures forall t | t in p.order :: t in p.contracts && t in s.tasks && t in s'.tasks
    ensures Left(p, s'.tasks) == Left(p, s.tasks)
  {
    hide SoundState, IsRecovered, GatesExact;
    SoundKeys(p, s, rec, s.updatedAt);
    SoundKeys(p, s', rec', now);
    RecoveryKeepsWorkLeft(p.order, p.contracts, s.tasks, s'.tasks);
  }
}
