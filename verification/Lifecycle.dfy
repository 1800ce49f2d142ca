/** Task snapshots, their lifecycle, the audit log, and what a checkpoint must satisfy to load. */
module Lifecycle {
  import opened Wrappers
  import opened Ordering
  import opened Scopes
  import opened Leases

  type TaskId = string
  type Time = Seconds

  datatype Status =
    | Pending | Ready | Leased | Running | Validating | Completed | Retry | Blocked | Escalated | Cancelled

  datatype FailureCategory =
    | ValidationFailure | DependencyMissing | SchemaMismatch | FileLeaseConflict | ModelUnavailable
    | BudgetExceeded | ReproducibilityFailure | SafetyBoundary | HumanDecisionRequired | RuntimeInterrupted

  datatype TaskLease = TaskLease(leaseId: LeaseId, workerId: string, acquiredAt: Time, expiresAt: Time, files: seq<Scope>)

  datatype WorkflowTask = WorkflowTask(
    taskId: TaskId,
    optional: bool,
    status: Status,
    attemptCount: nat,
    retryCount: nat,
    lease: Option<TaskLease>,
    startedAt: Option<Time>,
    completedAt: Option<Time>,
    updatedAt: Time,
    outputs: seq<string>,
    blocker: Option<string>,
    lastError: Option<string>,
    category: Option<FailureCategory>,
    noArtifactReason: Option<string>)

  predicate IsActive(s: Status) {
    s == Leased || s == Running || s == Validating
  }

  predicate IsTerminal(s: Status) {
    s == Completed || s == Cancelled || s == Escalated
  }

  /** Still to be scheduled or failed: what propagation looks at. */
  predicate IsWaiting(s: Status) {
    s == Pending || s == Ready || s == Retry
  }

  function AllowedTargets(s: Status): set<Status> {
    match s
    case Pending => {Ready, Blocked}
    case Ready => {Leased, Blocked}
    case Leased => {Running}
    case Running => {Validating}
    case Validating => {Completed, Retry, Blocked}
    case Retry => {Ready, Blocked}
    case Blocked => {Escalated}
    case Escalated => {Ready, Cancelled}
    case Completed => {}
    case Cancelled => {}
  }

  predicate NotEmpty(s: Option<string>) {
    s.Some? ==> s.value != ""
  }

  /** The validators a task snapshot passes when a checkpoint is loaded. */
  predicate TaskValid(t: WorkflowTask) {
    && (IsActive(t.status) <==> t.lease.Some?)
    && (t.lease.Some? ==> t.lease.value.acquiredAt < t.lease.value.expiresAt)
    && (t.status == Completed <==> t.completedAt.Some?)
    && (t.status == Blocked ==> t.blocker.Some?)
    && Distinct(t.outputs)
    && (t.outputs != [] ==> t.noArtifactReason.None?)
    && (t.category.Some? ==> t.lastError.Some?)
    && NotEmpty(t.blocker) && NotEmpty(t.lastError) && NotEmpty(t.noArtifactReason)
  }

  /** The keyword arguments of a transition. */
  datatype Details = Details(
    lease: Option<TaskLease>,
    blocker: Option<string>,
    error: Option<string>,
    category: Option<FailureCategory>,
    outputs: Option<seq<string>>,
    reason: Option<string>)

  const PLAIN: Details := Details(None, None, None, None, None, None)

  /** What the argument types guarantee: a valid lease, no empty strings. */
  predicate DetailsValid(d: Details) {
    && (d.lease.Some? ==> d.lease.value.acquiredAt < d.lease.value.expiresAt)
    && NotEmpty(d.blocker) && NotEmpty(d.error) && NotEmpty(d.reason)
  }

  /** The checks a transition makes before it builds the next snapshot. */
  predicate MayMove(t: WorkflowTask, target: Status, d: Details) {
    && (target in AllowedTargets(t.status) || (t.optional && target == Cancelled && (t.status == Pending || t.status == Ready)))
    && (target == Cancelled && t.status != Escalated ==> t.optional)
    && (target == Cancelled ==> d.reason.Some?)
    && (d.category.Some? ==> d.error.Some?)
    && (target == Leased <==> d.lease.Some?)
  }

  /** The next snapshot; it is built without validating it. */
  function Move(t: WorkflowTask, target: Status, d: Details, at: Time): WorkflowTask {
    t.(status := target,
       attemptCount := if target == Running then t.attemptCount + 1 else t.attemptCount,
       retryCount := if target == Retry then t.retryCount + 1 else t.retryCount,
       lease := if target == Leased then d.lease
                else if target in {Completed, Retry, Blocked, Escalated, Cancelled} then None
                else t.lease,
       startedAt := if target == Running then Some(at) else t.startedAt,
       completedAt := if target == Completed then Some(at) else None,
       updatedAt := at,
       blocker := if target == Blocked then d.blocker else None,
       lastError := d.error.GetOr(t.lastError),
       category := if d.error.Some? then d.category else None,
       outputs := if d.outputs.Some? then d.outputs.value else t.outputs,
       noArtifactReason := d.reason)
  }

  function RecoverToReady(t: WorkflowTask, at: Time, reason: string): WorkflowTask {
    t.(status := Ready, lease := None, completedAt := None, updatedAt := at,
       lastError := Some(reason), category := Some(RuntimeInterrupted), blocker := None)
  }

  /** An unvalidated move yields a loadable snapshot exactly when its caller names a blocker for a
      blocked task and never pairs output artifacts with a reason for having none. */
  lemma MoveStaysValidIff(t: WorkflowTask, target: Status, d: Details, at: Time)
    requires TaskValid(t) && DetailsValid(d) && MayMove(t, target, d)
    ensures TaskValid(Move(t, target, d, at)) <==>
            var outputs := if d.outputs.Some? then d.outputs.value else t.outputs;
            && (target == Blocked ==> d.blocker.Some?)
            && Distinct(outputs)
            && (outputs != [] ==> d.reason.None?)
  {
  }

  lemma RecoveryStaysValid(t: WorkflowTask, at: Time, reason: string)
    requires TaskValid(t) && IsActive(t.status) && reason != ""
    ensures TaskValid(RecoverToReady(t, at, reason))
  {
  }

  // ----- The audit log -----

  datatype EventKind = WorkflowCreated | StatusTransition | ArtifactRegistered | HandoffRegistered | CheckpointSaved | Note

  /** `number` stands for the identifier rendered from the sequence number. */
  datatype Event = Event(
    number: nat,
    workflowId: string,
    sequence: nat,
    kind: EventKind,
    occurredAt: Time,
    taskId: Option<TaskId>,
    previous: Option<Status>,
    next: Option<Status>,
    message: Option<string>)

  datatype EventLog = EventLog(workflowId: string, events: seq<Event>)

  predicate EventValid(e: Event) {
    && (e.kind == StatusTransition ==> e.taskId.Some? && e.previous.Some? && e.next.Some?)
    && (e.kind != StatusTransition ==> e.previous.None? && e.next.None?)
    && NotEmpty(e.message)
    && e.sequence >= 1
  }

  predicate EventInPlace(log: EventLog, i: nat)
    requires i < |log.events|
  {
    var e := log.events[i];
    EventValid(e) && e.workflowId == log.workflowId && e.sequence == i + 1
  }

  predicate InTimeOrder(log: EventLog) {
    forall i, j | 0 <= i < j < |log.events| :: log.events[i].occurredAt <= log.events[j].occurredAt
  }

  /** Contiguous from one, one identifier each, times never going back. */
  predicate LogValid(log: EventLog) {
    && (forall i | 0 <= i < |log.events| :: EventInPlace(log, i))
    && (forall i, j | 0 <= i < j < |log.events| :: log.events[i].number != log.events[j].number)
    && InTimeOrder(log)
  }

  /** The validator's single pass decides exactly that. */
  method ValidateHistory(log: EventLog) returns (accepted: bool)
    requires forall e | e in log.events :: EventValid(e)
    ensures accepted <==> LogValid(log)
  {
    var seen: set<nat> := {};
    var previousTime: Option<Time> := None;
    for i := 0 to |log.events|
      invariant seen == set k | 0 <= k < i :: log.events[k].number
      invariant previousTime.Some? <==> i > 0
      invariant i > 0 ==> previousTime == Some(log.events[i - 1].occurredAt)
      invariant forall k | 0 <= k < i :: EventInPlace(log, k)
      invariant forall k, l | 0 <= k < l < i :: log.events[k].number != log.events[l].number
      invariant forall k, l | 0 <= k < l < i :: log.events[k].occurredAt <= log.events[l].occurredAt
    {
      var e := log.events[i];
      assert e in log.events;
      if e.workflowId != log.workflowId || e.sequence != i + 1 {
        assert !EventInPlace(log, i);
        return false;
      }
      if e.number in seen {
        return false;
      }
      if previousTime.Some? && e.occurredAt < previousTime.value {
        return false;
      }
      seen := seen + {e.number};
      previousTime := Some(e.occurredAt);
    }
    return true;
  }

  /** The checks made when an event is appended. */
  predicate MayAppend(log: EventLog, e: Event) {
    && e.workflowId == log.workflowId
    && e.sequence == |log.events| + 1
    && (forall earlier | earlier in log.events :: earlier.number != e.number)
    && (log.events != [] ==> log.events[|log.events| - 1].occurredAt <= e.occurredAt)
  }

  /** Appending by those checks is how a valid log grows, and the only way. */
  lemma AppendValidIff(log: EventLog, e: Event)
    requires LogValid(log) && EventValid(e)
    ensures LogValid(log.(events := log.events + [e])) <==> MayAppend(log, e)
  {
    var longer := log.(events := log.events + [e]);
    var n := |log.events|;
    assert longer.events[n] == e;
    forall i | 0 <= i < n ensures EventInPlace(longer, i) && longer.events[i] == log.events[i] {
      assert EventInPlace(log, i);
    }
    if LogValid(longer) {
      assert EventInPlace(longer, n);
      forall earlier | earlier in log.events ensures earlier.number != e.number {
        var k :| 0 <= k < n && log.events[k] == earlier;
        assert longer.events[k].number != longer.events[n].number;
      }
      assert n > 0 ==> longer.events[n - 1].occurredAt <= longer.events[n].occurredAt;
    }
  }

  // ----- The workflow snapshot -----

  datatype Artifact = Artifact(artifactId: string, producedByTask: TaskId, producedByAgent: string, createdAt: Time)
  datatype Handoff = Handoff(handoffId: string, fromTask: TaskId, toTask: TaskId, artifacts: seq<string>, createdAt: Time)
  datatype Phase = PhaseReady | Executing | Integrating | PhaseCompleted | PhaseFailed

  datatype WorkflowState = WorkflowState(
    workflowId: string,
    revision: nat,
    updatedAt: Time,
    phase: Phase,
    activeAgents: set<string>,
    gates: map<string, bool>,
    blockers: seq<string>,
    decisions: seq<string>,
    checkpointSequence: nat,
    tasks: map<TaskId, WorkflowTask>,
    artifacts: map<string, Artifact>,
    handoffs: seq<Handoff>,
    log: EventLog)

  predicate HandoffsValid(handoffs: seq<Handoff>) {
    && (forall i, j | 0 <= i < j < |handoffs| :: handoffs[i].handoffId != handoffs[j].handoffId)
    && (forall h | h in handoffs :: h.artifacts != [] && Distinct(h.artifacts) && h.fromTask != h.toTask)
  }

  predicate TasksValid(tasks: map<TaskId, WorkflowTask>) {
    forall id | id in tasks :: tasks[id].taskId == id && TaskValid(tasks[id])
  }

  /** Everything checked when a checkpoint is read back. */
  predicate SnapshotValid(s: WorkflowState) {
    && s.log.workflowId == s.workflowId && LogValid(s.log)
    && TasksValid(s.tasks)
    && (forall id | id in s.artifacts :: s.artifacts[id].artifactId == id)
    && HandoffsValid(s.handoffs)
  }

  function ReplaceTask(s: WorkflowState, t: WorkflowTask): WorkflowState {
    s.(tasks := s.tasks[t.taskId := t], revision := s.revision + 1, updatedAt := t.updatedAt)
  }

  function NextEvent(s: WorkflowState, kind: EventKind, taskId: Option<TaskId>, previous: Option<Status>, next: Option<Status>,
                     message: Option<string>, at: Time): Event {
    var n := |s.log.events| + 1;
    Event(n, s.workflowId, n, kind, at, taskId, previous, next, message)
  }

  function AppendEvent(s: WorkflowState, e: Event): WorkflowState {
    s.(log := s.log.(events := s.log.events + [e]), revision := s.revision + 1, updatedAt := e.occurredAt)
  }

  /** The log is valid, numbered by position, and nothing in it is later than `now`. */
  ghost predicate LogCurrent(s: WorkflowState, now: Time) {
    && s.log.workflowId == s.workflowId
    && LogValid(s.log)
    && (forall i | 0 <= i < |s.log.events| :: s.log.events[i].number == i + 1 && s.log.events[i].occurredAt <= now)
    && s.updatedAt <= now
  }

  /** Whatever the supervisor records next passes the append checks and keeps the log current. */
  lemma RecordingKeepsLogCurrent(s: WorkflowState, kind: EventKind, taskId: Option<TaskId>, previous: Option<Status>,
                                 next: Option<Status>, message: Option<string>, before: Time, at: Time)
    requires LogCurrent(s, before) && before <= at && NotEmpty(message)
    requires kind == StatusTransition ==> taskId.Some? && previous.Some? && next.Some?
    requires kind != StatusTransition ==> previous.None? && next.None?
    ensures var e := NextEvent(s, kind, taskId, previous, next, message, at);
            MayAppend(s.log, e) && LogCurrent(AppendEvent(s, e), at)
  {
    var e := NextEvent(s, kind, taskId, previous, next, message, at);
    forall earlier | earlier in s.log.events ensures earlier.number != e.number {
      var k :| 0 <= k < |s.log.events| && s.log.events[k] == earlier;
    }
    AppendValidIff(s.log, e);
  }
}
