/** Resumable, budgeted execution of a matrix of trajectories. */
module EvaluationRunner {
  import opened Wrappers
  import opened Ordering

  type RunId = string

  datatype ResultStatus = Valid | Invalid | MissingOutput

  /** What a result says about its trajectory; `raw` is the stored payload its content-addressed pointer names. */
  datatype Core = Core(status: ResultStatus, raw: Option<string>, reason: Option<string>)

  datatype Result = Result(runId: RunId, matrixId: string, core: Core, elapsed: real)

  predicate CoreValid(c: Core) {
    match c.status
    case Valid => c.raw.Some? && c.raw.value != "" && c.reason.None?
    case Invalid => c.raw.Some? && c.raw.value != "" && c.reason.Some?
    case MissingOutput => c.raw.None? && c.reason.Some?
  }

  /** How one call of the executor can end. */
  datatype Attempt = Returned(core: Core) | TimedOut(reason: string) | Crashed(name: string) | LiveCall

  predicate AttemptValid(a: Attempt) {
    a.Returned? ==> CoreValid(a.core)
  }

  /** The result an attempt is recorded as; a live call is never recorded. */
  function Recorded(a: Attempt): Core {
    match a
    case Returned(core) => core
    case TimedOut(reason) => Core(MissingOutput, None, Some(reason))
    case Crashed(name) => Core(MissingOutput, None, Some("executor_error:" + name))
    case LiveCall => Core(MissingOutput, None, Some(""))
  }

  // ----- The budget account -----

  datatype Limits = Limits(trajectories: nat, modelCalls: nat, wallClock: real)

  datatype AccountProblem = NegativeUsage | TooManyTrajectories | TooManyCalls | TooMuchTime

  function OpeningProblem(l: Limits, started: int, calls: int, elapsed: real): Option<AccountProblem> {
    if started < 0 || calls < 0 || elapsed < 0.0 then Some(NegativeUsage)
    else if started > l.trajectories then Some(TooManyTrajectories)
    else if calls > l.modelCalls then Some(TooManyCalls)
    else if elapsed > l.wallClock then Some(TooMuchTime)
    else None
  }

  datatype Permission = Allowed | TimeExhausted | TrajectoriesExhausted | CallsDisabled | CallsExhausted

  class HardBudgetAccount {
    const limits: Limits
    const liveCalls: bool
    const previousElapsed: real
    const startedAt: real
    var trajectoriesStarted: nat
    var modelCalls: nat

    ghost predicate WithinLimits()
      reads this
    {
      trajectoriesStarted <= limits.trajectories && modelCalls <= limits.modelCalls
    }

    constructor (limits: Limits, liveCalls: bool, started: int, calls: int, elapsed: real, now: real)
      requires OpeningProblem(limits, started, calls, elapsed).None?
      ensures WithinLimits() && this.limits == limits && this.liveCalls == liveCalls
      ensures trajectoriesStarted == started && modelCalls == calls && previousElapsed == elapsed && startedAt == now
    {
      this.limits := limits;
      this.liveCalls := liveCalls;
      trajectoriesStarted, modelCalls := started, calls;
      previousElapsed, startedAt := elapsed, now;
    }

    function Elapsed(now: real): real {
      previousElapsed + (if now > startedAt then now - startedAt else 0.0)
    }

    function CheckTime(now: real): Permission {
      if Elapsed(now) >= limits.wallClock then TimeExhausted else Allowed
    }

    /** Counts a trajectory, unless time or the count is used up. */
    method StartTrajectory(now: real) returns (p: Permission)
      requires WithinLimits()
      modifies this`trajectoriesStarted
      ensures WithinLimits()
      ensures p.TimeExhausted? <==> Elapsed(now) >= limits.wallClock
      ensures p.TrajectoriesExhausted? <==> Elapsed(now) < limits.wallClock && old(trajectoriesStarted) >= limits.trajectories
      ensures p.Allowed? || p.TimeExhausted? || p.TrajectoriesExhausted?
      ensures trajectoriesStarted == old(trajectoriesStarted) + (if p.Allowed? then 1 else 0)
    {
      p := CheckTime(now);
      if p.Allowed? {
        if trajectoriesStarted >= limits.trajectories {
          return TrajectoriesExhausted;
        }
        trajectoriesStarted := trajectoriesStarted + 1;
      }
    }

    /** Counts a model call before it is made; an offline account always refuses. */
    method RecordModelCall(now: real) returns (p: Permission)
      requires WithinLimits()
      modifies this`modelCalls
      ensures WithinLimits() && modelCalls == old(modelCalls) + (if p.Allowed? then 1 else 0)
      ensures p.Allowed? <==> Elapsed(now) < limits.wallClock && liveCalls && old(modelCalls) < limits.modelCalls
    {
      p := CheckTime(now);
      if p.Allowed? {
        if !liveCalls {
          return CallsDisabled;
        }
        if modelCalls >= limits.modelCalls {
          return CallsExhausted;
        }
        modelCalls := modelCalls + 1;
      }
    }
  }

  // ----- Which assignments are done -----

  type Table = map<RunId, Result>

  /** The members of `ids` that are, or are not, in `chosen`, in order. */
  function Keeping(ids: seq<RunId>, chosen: set<RunId>, wanted: bool): seq<RunId> {
    if ids == [] then []
    else if (ids[0] in chosen) == wanted then [ids[0]] + Keeping(ids[1..], chosen, wanted)
    else Keeping(ids[1..], chosen, wanted)
  }

  function InOrder(ids: seq<RunId>, table: Table): seq<Result> {
    if ids == [] then []
    else if ids[0] in table then [table[ids[0]]] + InOrder(ids[1..], table)
    else InOrder(ids[1..], table)
  }

  function IdsOf(results: seq<Result>): seq<RunId> {
    if results == [] then [] else [results[0].runId] + IdsOf(results[1..])
  }

  /** `whole` is `a` and `b` shuffled together, each in its own order. */
  predicate IsInterleaving(whole: seq<RunId>, a: seq<RunId>, b: seq<RunId>) {
    if whole == [] then a == [] && b == []
    else
      || (a != [] && a[0] == whole[0] && IsInterleaving(whole[1..], a[1..], b))
      || (b != [] && b[0] == whole[0] && IsInterleaving(whole[1..], a, b[1..]))
  }

  predicate KeysMatch(table: Table) {
    forall id | id in table :: table[id].runId == id
  }

  lemma {:induction false} DoneAndPendingInterleave(ids: seq<RunId>, table: Table)
    requires KeysMatch(table)
    ensures IdsOf(InOrder(ids, table)) == Keeping(ids, table.Keys, true)
    ensures IsInterleaving(ids, Keeping(ids, table.Keys, true), Keeping(ids, table.Keys, false))
  {
    if ids != [] {
      DoneAndPendingInterleave(ids[1..], table);
      var a, b := Keeping(ids, table.Keys, true), Keeping(ids, table.Keys, false);
      if ids[0] in table {
        assert a[1..] == Keeping(ids[1..], table.Keys, true);
        assert InOrder(ids, table)[1..] == InOrder(ids[1..], table);
      } else {
        assert b[1..] == Keeping(ids[1..], table.Keys, false);
      }
    }
  }

  lemma {:induction false} KeepingListed(ids: seq<RunId>, chosen: set<RunId>, wanted: bool)
    ensures forall id :: id in Keeping(ids, chosen, wanted) <==> id in ids && ((id in chosen) == wanted)
    ensures Distinct(ids) ==> Distinct(Keeping(ids, chosen, wanted))
    ensures |Keeping(ids, chosen, true)| + |Keeping(ids, chosen, false)| == |ids|
  {
    if ids != [] {
      assert ids == [ids[0]] + ids[1..];
      KeepingListed(ids[1..], chosen, wanted);
    }
  }

  lemma {:induction false} InOrderListed(ids: seq<RunId>, table: Table, r: Result)
    requires KeysMatch(table)
    ensures r in InOrder(ids, table) <==> r.runId in ids && r.runId in table && table[r.runId] == r
  {
    if ids != [] {
      assert ids == [ids[0]] + ids[1..];
      InOrderListed(ids[1..], table, r);
    }
  }

  /** The first `limit` assignments that have no result yet. */
  function Scheduled(ids: seq<RunId>, done: set<RunId>, limit: Option<nat>): seq<RunId> {
    var pending := Keeping(ids, done, false);
    if limit.None? || limit.value >= |pending| then pending else pending[..limit.value]
  }

  lemma ScheduledIsNew(ids: seq<RunId>, done: set<RunId>, limit: Option<nat>)
    requires Distinct(ids)
    ensures Distinct(Scheduled(ids, done, limit))
    ensures forall id | id in Scheduled(ids, done, limit) :: id in ids && id !in done
    ensures |Scheduled(ids, done, limit)| <= |Keeping(ids, done, false)|
  {
    KeepingListed(ids, done, false);
  }

  // ----- The runner -----

  datatype ProgressStatus = Complete | PausedRun | BudgetExhausted

  datatype Progress =
    | Progress(status: ProgressStatus, results: seq<Result>, pending: seq<RunId>, started: nat)
    | DuplicatePrior
    | ForeignPrior
    | RawMissing
    | Refused(problem: AccountProblem)
    | NegativeLimit
    | LiveCallAttempted

  function TotalElapsed(results: seq<Result>): real {
    if results == [] then 0.0 else results[0].elapsed + TotalElapsed(results[1..])
  }

  lemma {:induction false} ElapsedIsNotNegative(results: seq<Result>)
    requires forall r | r in results :: r.elapsed >= 0.0
    ensures TotalElapsed(results) >= 0.0
  {
    if results != [] {
      assert results[0] in results;
      ElapsedIsNotNegative(results[1..]);
    }
  }

  function IdSet(results: seq<Result>): set<RunId> {
    set r | r in results :: r.runId
  }

  predicate DistinctIds(results: seq<Result>) {
    forall i, j | 0 <= i < j < |results| :: results[i].runId != results[j].runId
  }

  /** `table` holds exactly these results under their identifiers. */
  ghost predicate IsTableOf(table: Table, results: seq<Result>) {
    && table.Keys == IdSet(results)
    && KeysMatch(table)
    && forall r | r in results :: table[r.runId] == r
  }

  lemma {:induction false} IdSetSize(results: seq<Result>)
    requires DistinctIds(results)
    ensures |IdSet(results)| == |results|
  {
    if results == [] {
      assert IdSet(results) == {};
    } else {
      var n := |results| - 1;
      IdSetSize(results[..n]);
      assert results == results[..n] + [results[n]];
      assert IdSet(results) == IdSet(results[..n]) + {results[n].runId};
    }
  }

  /** Recorded and scheduled trajectories together never exceed the matrix. */
  lemma RoomForAll(ids: seq<RunId>, table: Table, limit: Option<nat>)
    requires Distinct(ids) && table.Keys <= (set id | id in ids)
    ensures |table| + |Scheduled(ids, table.Keys, limit)| <= |ids|
  {
    var done := Keeping(ids, table.Keys, true);
    KeepingListed(ids, table.Keys, true);
    ScheduledIsNew(ids, table.Keys, limit);
    DistinctLength(done);
    assert table.Keys == set id | id in done;
  }

  /** The table once `executed` has been recorded. */
  ghost predicate IsExtended(prior: Table, table: Table, executed: seq<RunId>, executor: RunId -> Attempt, matrixId: string) {
    && table.Keys == prior.Keys + (set id | id in executed)
    && KeysMatch(table)
    && (forall id | id in prior :: table[id] == prior[id])
    && (forall id | id in executed :: table[id].matrixId == matrixId && table[id].core == Recorded(executor(id)) && table[id].elapsed >= 0.0)
  }

  lemma ExtendOne(prior: Table, table: Table, scheduled: seq<RunId>, i: nat, executor: RunId -> Attempt, matrixId: string, r: Result)
    requires i < |scheduled| && Distinct(scheduled) && scheduled[i] !in prior
    requires IsExtended(prior, table, scheduled[..i], executor, matrixId)
    requires r.runId == scheduled[i] && r.matrixId == matrixId && r.core == Recorded(executor(scheduled[i])) && r.elapsed >= 0.0
    ensures IsExtended(prior, table[r.runId := r], scheduled[..i + 1], executor, matrixId)
  {
    assert scheduled[..i + 1] == scheduled[..i] + [scheduled[i]];
    assert scheduled[i] !in scheduled[..i];
  }

  class OfflineEvaluationRunner {
    const assignments: seq<RunId>
    const matrixId: string
    const budget: Limits
    /** The payloads in the write-once store. */
    var stored: set<string>
    /** The last reading of the clock, which never goes back. */
    var now: real

    ghost predicate Valid()
    {
      Distinct(assignments) && budget.trajectories == |assignments|
    }

    constructor (assignments: seq<RunId>, matrixId: string, budget: Limits, stored: set<string>, now: real)
      requires Distinct(assignments) && budget.trajectories == |assignments|
      ensures Valid() && this.assignments == assignments && this.matrixId == matrixId && this.budget == budget && this.stored == stored
      ensures this.now == now
    {
      this.assignments := assignments;
      this.matrixId := matrixId;
      this.budget := budget;
      this.stored := stored;
      this.now := now;
    }

    method Clock() returns (reading: real)
      modifies this`now
      ensures reading == now >= old(now)
    {
      var later: real := *;
      reading := if later > now then later else now;
      now := reading;
    }

    predicate IsUsable(r: Result)
      reads this`stored
    {
      r.runId in assignments && r.matrixId == matrixId && (r.core.raw.Some? ==> r.core.raw.value in stored)
    }

    /** Checks prior results and indexes them; the first fault found in order is reported. */
    method PriorById(prior: seq<Result>) returns (fault: Option<Progress>, table: Table)
      ensures fault.None? ==> IsTableOf(table, prior)
      ensures fault.None? <==> DistinctIds(prior) && forall r | r in prior :: IsUsable(r)
      ensures fault.Some? ==> fault.value == DuplicatePrior || fault.value == ForeignPrior || fault.value == RawMissing
    {
      table := map[];
      for i := 0 to |prior|
        invariant IsTableOf(table, prior[..i]) && DistinctIds(prior[..i]) && forall r | r in prior[..i] :: IsUsable(r)
      {
        var r := prior[i];
        assert prior[..i + 1] == prior[..i] + [r];
        assert r in prior;
        if r.runId in table {
          assert table[r.runId] in prior[..i];
          return Some(DuplicatePrior), table;
        }
        if r.runId !in assignments || r.matrixId != matrixId {
          return Some(ForeignPrior), table;
        }
        if r.core.raw.Some? && r.core.raw.value !in stored {
          return Some(RawMissing), table;
        }
        table := table[r.runId := r];
      }
      assert prior[..|prior|] == prior;
      return None, table;
    }

    /** Runs the scheduled trajectories until time is up: the clock says so, or a trajectory was cut short by it.
        A trajectory that attempts a live call ends the run without a record. */
    method Execute(executor: RunId -> Attempt, prior: Table, scheduled: seq<RunId>, account: HardBudgetAccount)
      returns (table: Table, executed: seq<RunId>, exhausted: bool, live: bool)
      requires forall id :: AttemptValid(executor(id))
      requires Distinct(scheduled) && KeysMatch(prior) && forall id | id in scheduled :: id !in prior && id in assignments
      requires forall id | id in prior :: IsUsable(prior[id])
      requires account.WithinLimits() && account.trajectoriesStarted + |scheduled| <= account.limits.trajectories
      modifies this`stored, this`now, account
      ensures old(stored) <= stored && old(now) <= now && account.WithinLimits()
      ensures executed <= scheduled && IsExtended(prior, table, executed, executor, matrixId) && forall id | id in table :: IsUsable(table[id])
      ensures live <==> executed < scheduled && !exhausted
      ensures live ==> executor(scheduled[|executed|]).LiveCall?
      ensures !live ==> account.trajectoriesStarted == old(account.trajectoriesStarted) + |executed|
      ensures !live ==> (exhausted <==> scheduled != [] && (account.Elapsed(now) >= account.limits.wallClock || LastTimedOut(executor, executed)))
      ensures forall k | 0 <= k < |executed| - 1 :: !executor(executed[k]).TimedOut?
    {
      hide Recorded, IsExtended;
      table, executed, exhausted, live := prior, [], false, false;
      NothingExtended(prior, scheduled, executor, matrixId);
      for i := 0 to |scheduled|
        invariant executed == scheduled[..i] && old(now) <= now
        invariant old(stored) <= stored && account.WithinLimits()
        invariant account.trajectoriesStarted == old(account.trajectoriesStarted) + i
        invariant IsExtended(prior, table, executed, executor, matrixId) && forall id | id in table :: IsUsable(table[id])
        invariant forall id | id in executed :: !executor(id).TimedOut?
        invariant i > 0 ==> account.Elapsed(now) < account.limits.wallClock
      {
        var before := Clock();
        var permission := account.StartTrajectory(before);
        if !permission.Allowed? {
          return table, executed, true, false;
        }
        var id := scheduled[i];
        assert id in scheduled;
        var started := Clock();
        var attempt := executor(id);
        if attempt.LiveCall? {
          return table, executed, false, true;
        }
        var core := Recorded(attempt);
        RecordedIsValid(attempt);
        var ended := Clock();
        if core.raw.Some? {
          stored := stored + {core.raw.value};
        }
        var r := Result(id, matrixId, core, if ended > started then ended - started else 0.0);
        ExtendOne(prior, table, scheduled, i, executor, matrixId, r);
        table := table[id := r];
        executed := executed + [id];
        assert scheduled[..i + 1] == scheduled[..i] + [id];
        if attempt.TimedOut? {
          return table, executed, true, false;
        }
        var after := Clock();
        if account.CheckTime(after).TimeExhausted? {
          return table, executed, true, false;
        }
      }
    }

    function Slice(done: set<RunId>, limit: Option<int>): seq<RunId>
      requires limit.Some? ==> limit.value >= 0
    {
      Scheduled(assignments, done, if limit.Some? then Some(limit.value) else None)
    }

    /** Runs a bounded slice of the matrix. Nothing that has a result is executed, nothing is executed
        twice, and only time stops a slice: the trajectory limit never does. */
    method Run(executor: RunId -> Attempt, prior: seq<Result>, limit: Option<int>)
      returns (p: Progress, executed: seq<RunId>, exhausted: bool)
      requires Valid() && (forall id :: AttemptValid(executor(id))) && forall r | r in prior :: r.elapsed >= 0.0
      modifies this`stored, this`now
      ensures old(stored) <= stored && old(now) <= now
      ensures p.Refused? <==> DistinctIds(prior) && (forall r | r in prior :: old(IsUsable(r))) && TotalElapsed(prior) > budget.wallClock
      ensures p.Refused? ==> p.problem == TooMuchTime
      ensures p.DuplicatePrior? || p.ForeignPrior? || p.RawMissing? <==> !(DistinctIds(prior) && forall r | r in prior :: old(IsUsable(r)))
      ensures p.NegativeLimit? ==> limit.Some? && limit.value < 0
      ensures Distinct(executed) && forall id | id in executed :: id in assignments && id !in IdSet(prior)
      ensures p.Progress? ==>
                && IsInterleaving(assignments, IdsOf(p.results), p.pending)
                && IdSet(p.results) == IdSet(prior) + (set id | id in executed)
                && (forall r | r in prior :: r in p.results)
                && (forall r | r in p.results :: IsUsable(r) && (r in prior || (r.runId !in IdSet(prior) && r.core == Recorded(executor(r.runId)))))
                && p.started == |prior| + |executed|
                && LinkOk(Link(IdSet(prior), executed, IdSet(p.results)))
      ensures p.Progress? ==> CanResume(p.results) && IdsOf(p.results) == Keeping(assignments, IdSet(p.results), true)
      ensures p.Progress? ==>
                && (limit.Some? ==> limit.value >= 0)
                && executed <= Slice(IdSet(prior), limit) && (!exhausted ==> executed == Slice(IdSet(prior), limit))
                && p.status == if p.pending == [] then Complete else if exhausted then BudgetExhausted else PausedRun
      ensures exhausted ==> TotalElapsed(prior) + (now - old(now)) >= budget.wallClock || LastTimedOut(executor, executed)
      ensures !exhausted && p.Progress? ==> forall id | id in executed :: !executor(id).TimedOut?
      ensures p.LiveCallAttempted? ==> exists id | id in assignments :: id !in IdSet(prior) && executor(id).LiveCall?
    {
      hide IsExtended, IsTableOf, IsInterleaving, Recorded, Scheduled, InOrder, Keeping, IdsOf, AttemptValid, Distinct, KeysMatch, CanResume,
        LinkOk, IdSet, LastTimedOut, TotalElapsed;
      executed, exhausted := [], false;
      NothingIsDistinct();
      var fault, table := PriorById(prior);
      if fault.Some? {
        return fault.value, executed, exhausted;
      }
      IndexedPrior(table, prior);
      ElapsedIsNotNegative(prior);
      UsableIsAssigned(table, prior);
      var slice: Option<nat> := if limit.Some? && limit.value >= 0 then Some(limit.value) else None;
      RoomForAll(assignments, table, slice);
      var problem := OpeningProblem(budget, |table|, 0, TotalElapsed(prior));
      if problem.Some? {
        return Refused(problem.value), executed, exhausted;
      }
      var opening := Clock();
      var account := new HardBudgetAccount(budget, false, |table|, 0, TotalElapsed(prior), opening);
      if limit.Some? && limit.value < 0 {
        return NegativeLimit, executed, exhausted;
      }
      var scheduled := Scheduled(assignments, table.Keys, slice);
      ScheduledIsNew(assignments, table.Keys, slice);
      var combined, live;
      combined, executed, exhausted, live := Execute(executor, table, scheduled, account);
      PrefixIsDistinct(executed, scheduled);
      if live {
        assert scheduled[|executed|] in scheduled;
        return LiveCallAttempted, executed, exhausted;
      }
      RunIsReported(prior, table, combined, executed, executor);
      NoneTimedOut(executor, executed);
      var pending := Keeping(assignments, combined.Keys, false);
      var status := if pending == [] then Complete else if exhausted then BudgetExhausted else PausedRun;
      p := Progress(status, InOrder(assignments, combined), pending, account.trajectoriesStarted);
    }

    lemma RunIsReported(prior: seq<Result>, table: Table, combined: Table, executed: seq<RunId>, executor: RunId -> Attempt)
      requires Distinct(assignments) && IsTableOf(table, prior) && IsExtended(table, combined, executed, executor, matrixId)
      requires (forall r | r in prior :: r.elapsed >= 0.0) && forall id | id in combined :: IsUsable(combined[id])
      requires Distinct(executed) && forall id | id in executed :: id !in IdSet(prior)
      ensures var results, pending := InOrder(assignments, combined), Keeping(assignments, combined.Keys, false);
              && IsInterleaving(assignments, IdsOf(results), pending)
              && IdSet(results) == IdSet(prior) + (set id | id in executed)
              && (forall r | r in prior :: r in results)
              && (forall r | r in results :: IsUsable(r) && (r in prior || (r.runId !in IdSet(prior) && r.core == Recorded(executor(r.runId)))))
              && LinkOk(Link(IdSet(prior), executed, IdSet(results)))
              && CanResume(results) && IdsOf(results) == Keeping(assignments, IdSet(results), true)
    {
      hide IsTableOf, IsExtended, IsInterleaving, InOrder, IdsOf, Keeping, Recorded, IsUsable, CanResume, IdSet, Distinct;
      DoneIsReported(prior, table, combined, executed, executor);
      DoneAndPendingInterleave(assignments, combined);
      ReportedCanResume(prior, table, combined, executed, executor);
    }

    /** Results a later run can resume from. */
    predicate CanResume(results: seq<Result>)
      reads this`stored
    {
      DistinctIds(results) && forall r | r in results :: IsUsable(r) && r.elapsed >= 0.0
    }

    lemma ReportedCanResume(prior: seq<Result>, table: Table, combined: Table, executed: seq<RunId>, executor: RunId -> Attempt)
      requires Distinct(assignments) && IsTableOf(table, prior) && IsExtended(table, combined, executed, executor, matrixId)
      requires forall r | r in prior :: r.elapsed >= 0.0
      requires forall id | id in combined :: IsUsable(combined[id])
      ensures CanResume(InOrder(assignments, combined)) && IdSet(InOrder(assignments, combined)) == combined.Keys
    {
      hide Recorded, Keeping, IsUsable;
      var results := InOrder(assignments, combined);
      InOrderDistinct(assignments, combined);
      forall r | r in results ensures IsUsable(r) && r.elapsed >= 0.0 {
        InOrderListed(assignments, combined, r);
        if r.runId in table {
          var q :| q in prior && q.runId == r.runId;
        }
      }
      AllReported(combined);
    }

    lemma AllReported(combined: Table)
      requires KeysMatch(combined) && forall id | id in combined :: IsUsable(combined[id])
      ensures IdSet(InOrder(assignments, combined)) == combined.Keys
    {
      var results := InOrder(assignments, combined);
      forall id ensures id in IdSet(results) <==> id in combined {
        if id in combined {
          InOrderListed(assignments, combined, combined[id]);
          assert IsUsable(combined[id]) && combined[id] in results;
        }
        if r :| r in results && r.runId == id {
          InOrderListed(assignments, combined, r);
        }
      }
    }

    /** Runs slice after slice, each resumed from the results of the one before. Only a trajectory that was cut short or
        attempted a live call, or the end of the wall-clock budget, can keep it from finishing every slice. */
    method RunInSlices(executor: RunId -> Attempt, sizes: seq<nat>) returns (results: seq<Result>, whole: bool)
      requires Valid() && forall id :: AttemptValid(executor(id))
      modifies this`stored, this`now
      ensures old(stored) <= stored && CanResume(results) && InMatrixOrder(assignments, results) && old(now) <= now
      ensures whole ==> Records(results, RunSlices(assignments, executor, sizes))
      ensures !whole ==> TotalElapsed(results) + (now - old(now)) >= budget.wallClock || SomeFails(assignments, executor)
    {
      hide Recorded, Keeping, IsInterleaving, LinkOk, Records, RunSlice, AttemptValid, InMatrixOrder;
      results := [];
      NothingRecorded(assignments);
      assert sizes[..0] == [];
      for i := 0 to |sizes|
        invariant old(stored) <= stored && CanResume(results) && old(now) <= now
        invariant Records(results, RunSlices(assignments, executor, sizes[..i])) && InMatrixOrder(assignments, results)
      {
        var p, executed, exhausted := Run(executor, results, Some(sizes[i]));
        if !p.Progress? {
          return results, false;
        }
        if exhausted {
          return results, false;
        }
        SliceIsRecorded(assignments, executor, results, p.results, executed, RunSlices(assignments, executor, sizes[..i]), sizes[i]);
        assert sizes[..i + 1][..i] == sizes[..i];
        results := p.results;
      }
      assert sizes[..|sizes|] == sizes;
      whole := true;
    }

    /** Slices that together reach the end leave exactly what one uninterrupted run leaves, in the same order. */
    method SlicesAgreeWithOneRun(executor: RunId -> Attempt, sizes: seq<nat>) returns (sliced: seq<Result>, straight: seq<Result>, whole: bool)
      requires Valid() && (forall id :: AttemptValid(executor(id))) && Total(sizes) >= |assignments|
      modifies this`stored, this`now
      ensures !whole ==> TotalElapsed(sliced) + (now - old(now)) >= budget.wallClock || SomeFails(assignments, executor)
      ensures whole ==> |sliced| == |straight| == |assignments|
      ensures whole ==> forall i | 0 <= i < |assignments| ::
                sliced[i].runId == straight[i].runId == assignments[i] && sliced[i].core == straight[i].core == Recorded(executor(assignments[i]))
    {
      hide Recorded, Keeping, IsInterleaving, LinkOk, IsUsable, Records, RunSlice, AttemptValid, Scheduled, InMatrixOrder, CanResume, RunSlices, Total, CoresOf, Distinct;
      var p, executed, exhausted := Run(executor, [], None);
      if !p.Progress? || exhausted {
        return [], [], false;
      }
      straight := p.results;
      StraightIsRecorded(executor, straight, executed);
      sliced, whole := RunInSlices(executor, sizes);
      AnySlicingAgrees(assignments, executor, sizes);
      NextSlice(assignments, executor, 0, None);
      assert FirstCores(assignments, executor, 0) == map[];
      if whole {
        WholeMatrix(assignments, executor, sliced);
        WholeMatrix(assignments, executor, straight);
      }
    }

    lemma StraightIsRecorded(executor: RunId -> Attempt, results: seq<Result>, executed: seq<RunId>)
      requires Valid() && IdsOf(results) == Keeping(assignments, IdSet(results), true)
      requires executed == Slice(IdSet([]), None) && IdSet(results) == IdSet([]) + (set id | id in executed)
      requires forall r | r in results :: r in [] || (r.runId !in IdSet([]) && r.core == Recorded(executor(r.runId)))
      ensures Records(results, FirstCores(assignments, executor, |assignments|)) && InMatrixOrder(assignments, results)
    {
      hide Recorded, Keeping, Scheduled;
      assert assignments[..|assignments|] == assignments;
      assert IdSet([]) == {};
      ScheduledAfter(assignments, 0, {}, None);
    }

    lemma UsableIsAssigned(table: Table, prior: seq<Result>)
      requires IsTableOf(table, prior) && forall r | r in prior :: IsUsable(r)
      ensures table.Keys <= (set id | id in assignments) && forall id | id in table :: IsUsable(table[id])
    {
      forall id | id in table ensures id in assignments && IsUsable(table[id]) {
        var r :| r in prior && r.runId == id;
      }
    }

    lemma DoneIsReported(prior: seq<Result>, table: Table, combined: Table, executed: seq<RunId>, executor: RunId -> Attempt)
      requires IsTableOf(table, prior) && IsExtended(table, combined, executed, executor, matrixId)
      requires forall id | id in combined :: IsUsable(combined[id])
      ensures var results := InOrder(assignments, combined);
              && IdSet(results) == IdSet(prior) + (set id | id in executed)
              && (forall r | r in prior :: r in results)
              && (forall r | r in results :: IsUsable(r) && (r in prior || (r.runId !in IdSet(prior) && r.core == Recorded(executor(r.runId)))))
      ensures KeysMatch(combined)
    {
      hide InOrder, Recorded;
      var results := InOrder(assignments, combined);
      forall r ensures r in results <==> r.runId in combined && combined[r.runId] == r {
        InOrderListed(assignments, combined, r);
        if r.runId in combined {
          assert IsUsable(combined[r.runId]);
        }
      }
      forall id ensures id in IdSet(results) <==> id in combined {
        if id in combined {
          assert combined[id] in results;
        }
      }
      forall r | r in results
        ensures IsUsable(r) && (r in prior || (r.runId !in IdSet(prior) && r.core == Recorded(executor(r.runId))))
      {
        if r.runId in table {
          var q :| q in prior && q.runId == r.runId;
        }
      }
    }
  }

  lemma {:induction false} InOrderDistinct(ids: seq<RunId>, table: Table)
    requires KeysMatch(table) && Distinct(ids)
    ensures DistinctIds(InOrder(ids, table))
  {
    if ids != [] {
      var rest := InOrder(ids[1..], table);
      InOrderDistinct(ids[1..], table);
      forall r | r in rest ensures r.runId in ids[1..] {
        InOrderListed(ids[1..], table, r);
      }
    }
  }

  /** The attempt that ended the run was itself cut short. */
  predicate LastTimedOut(executor: RunId -> Attempt, executed: seq<RunId>) {
    executed != [] && executor(executed[|executed| - 1]).TimedOut?
  }

  predicate SomeFails(ids: seq<RunId>, executor: RunId -> Attempt) {
    exists id | id in ids :: executor(id).TimedOut? || executor(id).LiveCall?
  }

  lemma NoneTimedOut(executor: RunId -> Attempt, executed: seq<RunId>)
    requires forall k | 0 <= k < |executed| - 1 :: !executor(executed[k]).TimedOut?
    ensures !LastTimedOut(executor, executed) ==> forall id | id in executed :: !executor(id).TimedOut?
  {
  }

  lemma NothingIsDistinct()
    ensures Distinct<RunId>([])
  {
  }

  lemma PrefixIsDistinct(a: seq<RunId>, b: seq<RunId>)
    requires a <= b && Distinct(b)
    ensures Distinct(a) && forall id | id in a :: id in b
  {
  }

  lemma IndexedPrior(table: Table, prior: seq<Result>)
    requires IsTableOf(table, prior) && DistinctIds(prior)
    ensures |table| == |prior| && table.Keys == IdSet(prior) && KeysMatch(table)
  {
    IdSetSize(prior);
    assert |table| == |table.Keys|;
  }

  lemma NothingExtended(prior: Table, scheduled: seq<RunId>, executor: RunId -> Attempt, matrixId: string)
    requires KeysMatch(prior)
    ensures IsExtended(prior, prior, scheduled[..0], executor, matrixId)
  {
  }

  lemma RecordedIsValid(a: Attempt)
    requires AttemptValid(a) && !a.LiveCall?
    ensures CoreValid(Recorded(a))
  {
  }

  // ----- Chains of slices -----

  /** One run of a chain: the results it resumed from, what it executed, and the results it left. */
  datatype Link = Link(before: set<RunId>, executed: seq<RunId>, after: set<RunId>)

  /** What `Run` guarantees of every link. */
  predicate LinkOk(l: Link) {
    && Distinct(l.executed)
    && (forall id | id in l.executed :: id !in l.before)
    && l.after == l.before + (set id | id in l.executed)
  }

  predicate IsChain(links: seq<Link>) {
    && (forall l | l in links :: LinkOk(l))
    && forall i | 0 < i < |links| :: Follows(links, i)
  }

  predicate Follows(links: seq<Link>, i: nat)
    requires 0 < i < |links|
  {
    links[i].before == links[i - 1].after
  }

  function AllExecuted(links: seq<Link>): seq<RunId> {
    if links == [] then [] else AllExecuted(links[..|links| - 1]) + links[|links| - 1].executed
  }

  /** Over any chain of resumes no trajectory is executed twice. */
  lemma {:induction false} ChainExecutesOnce(links: seq<Link>)
    requires IsChain(links) && links != []
    ensures Distinct(AllExecuted(links))
    ensures forall id | id in AllExecuted(links) :: id !in links[0].before
    ensures links[|links| - 1].after == links[0].before + (set id | id in AllExecuted(links))
  {
    hide Distinct;
    var n := |links| - 1;
    var last := links[n];
    assert last in links && LinkOk(last);
    if n == 0 {
      NothingIsDistinct();
      assert AllExecuted(links[..0]) == [];
      assert AllExecuted(links) == last.executed;
    } else {
      var shorter := links[..n];
      assert shorter[0] == links[0] && shorter[n - 1] == links[n - 1];
      forall i | 0 < i < |shorter| ensures Follows(shorter, i) {
        assert Follows(links, i);
      }
      ChainExecutesOnce(shorter);
      assert Follows(links, n);
      DistinctTogether(AllExecuted(shorter), last.executed);
    }
  }

  lemma DistinctTogether(a: seq<RunId>, b: seq<RunId>)
    requires Distinct(a) && Distinct(b) && forall id | id in b :: id !in a
    ensures Distinct(a + b)
  {
    forall i, j | 0 <= i < j < |a + b| ensures (a + b)[i] != (a + b)[j] {
      if i < |a| <= j {
        assert a[i] in a && b[j - |a|] in b;
      }
    }
  }

  /** The statuses, pointers and reasons recorded by a run that is not cut short. */
  function RunSlice(ids: seq<RunId>, executor: RunId -> Attempt, done: map<RunId, Core>, limit: Option<nat>): map<RunId, Core> {
    done + CoresOf(executor, Scheduled(ids, done.Keys, limit))
  }

  function CoresOf(executor: RunId -> Attempt, ids: seq<RunId>): (r: map<RunId, Core>)
    ensures r.Keys == (set id | id in ids)
  {
    map id | id in ids :: Recorded(executor(id))
  }

  lemma CoresTogether(executor: RunId -> Attempt, a: seq<RunId>, b: seq<RunId>)
    ensures CoresOf(executor, a) + CoresOf(executor, b) == CoresOf(executor, a + b)
  {
    hide Recorded;
  }

  /** Cut short by nothing, `Run` leaves the statuses, pointers and reasons of its slice. */
  lemma RunLeavesItsSlice(ids: seq<RunId>, executor: RunId -> Attempt, prior: seq<Result>, cores: map<RunId, Core>,
                          results: seq<Result>, executed: seq<RunId>, limit: Option<nat>)
    requires cores.Keys == IdSet(prior) && forall r | r in prior :: cores[r.runId] == r.core
    requires executed == Scheduled(ids, IdSet(prior), limit) && forall id | id in executed :: id !in IdSet(prior)
    requires IdSet(results) == IdSet(prior) + (set id | id in executed)
    requires forall r | r in results :: r in prior || (r.runId !in IdSet(prior) && r.core == Recorded(executor(r.runId)))
    ensures RunSlice(ids, executor, cores, limit).Keys == IdSet(results)
    ensures forall r | r in results :: RunSlice(ids, executor, cores, limit)[r.runId] == r.core
  {
    hide Recorded, Scheduled;
    forall r | r in results ensures r.runId in IdSet(results) {
    }
  }

  /** The results record exactly these statuses, pointers and reasons. */
  predicate Records(results: seq<Result>, cores: map<RunId, Core>) {
    cores.Keys == IdSet(results) && forall r | r in results :: cores[r.runId] == r.core
  }

  predicate InMatrixOrder(ids: seq<RunId>, results: seq<Result>) {
    IdsOf(results) == Keeping(ids, IdSet(results), true)
  }

  lemma {:induction false} NothingRecorded(ids: seq<RunId>)
    ensures Records([], map[]) && InMatrixOrder(ids, [])
  {
    NoneKept(ids);
  }

  lemma {:induction false} NoneKept(ids: seq<RunId>)
    ensures Keeping(ids, IdSet([]), true) == []
  {
    if ids != [] {
      NoneKept(ids[1..]);
    }
  }

  lemma SliceIsRecorded(ids: seq<RunId>, executor: RunId -> Attempt, prior: seq<Result>, results: seq<Result>, executed: seq<RunId>,
                        cores: map<RunId, Core>, size: nat)
    requires Distinct(ids) && Records(prior, cores) && executed == Scheduled(ids, IdSet(prior), Some(size))
    requires IdSet(results) == IdSet(prior) + (set id | id in executed) && IdsOf(results) == Keeping(ids, IdSet(results), true)
    requires forall r | r in results :: r in prior || (r.runId !in IdSet(prior) && r.core == Recorded(executor(r.runId)))
    ensures Records(results, RunSlice(ids, executor, cores, Some(size))) && InMatrixOrder(ids, results)
  {
    hide Recorded, Scheduled, Keeping, IdsOf, Distinct;
    ScheduledIsNew(ids, IdSet(prior), Some(size));
    RunLeavesItsSlice(ids, executor, prior, cores, results, executed, Some(size));
  }

  /** Results in matrix order that record every assignment are the executor's answers, one after the other. */
  lemma WholeMatrix(ids: seq<RunId>, executor: RunId -> Attempt, results: seq<Result>)
    requires InMatrixOrder(ids, results) && Records(results, FirstCores(ids, executor, |ids|))
    ensures |results| == |ids|
    ensures forall i | 0 <= i < |ids| :: results[i].runId == ids[i] && results[i].core == Recorded(executor(ids[i]))
  {
    hide Recorded, Keeping, IdsOf;
    assert ids[..|ids|] == ids;
    AllKept(ids, IdSet(results));
    IdsAre(results);
    forall i | 0 <= i < |ids| ensures results[i].runId == ids[i] && results[i].core == Recorded(executor(ids[i])) {
      assert results[i] in results;
    }
  }

  lemma {:induction false} AllKept(ids: seq<RunId>, chosen: set<RunId>)
    requires forall id | id in ids :: id in chosen
    ensures Keeping(ids, chosen, true) == ids
  {
    if ids != [] {
      AllKept(ids[1..], chosen);
    }
  }

  lemma {:induction false} IdsAre(results: seq<Result>)
    ensures |IdsOf(results)| == |results| && forall i | 0 <= i < |results| :: IdsOf(results)[i] == results[i].runId
  {
    if results != [] {
      IdsAre(results[1..]);
    }
  }

  function RunSlices(ids: seq<RunId>, executor: RunId -> Attempt, sizes: seq<nat>): map<RunId, Core> {
    if sizes == [] then map[]
    else RunSlice(ids, executor, RunSlices(ids, executor, sizes[..|sizes| - 1]), Some(sizes[|sizes| - 1]))
  }

  function Total(sizes: seq<nat>): nat {
    if sizes == [] then 0 else Total(sizes[..|sizes| - 1]) + sizes[|sizes| - 1]
  }

  function Least(a: nat, b: nat): nat {
    if a <= b then a else b
  }

  /** The executor's answers for the first `n` assignments. */
  function FirstCores(ids: seq<RunId>, executor: RunId -> Attempt, n: nat): map<RunId, Core>
    requires n <= |ids|
  {
    CoresOf(executor, ids[..n])
  }

  lemma {:induction false} PendingAfter(ids: seq<RunId>, n: nat, chosen: set<RunId>)
    requires Distinct(ids) && n <= |ids| && forall i | 0 <= i < |ids| :: ids[i] in chosen <==> i < n
    ensures Keeping(ids, chosen, false) == ids[n..]
  {
    if ids != [] {
      var rest := ids[1..];
      if n > 0 {
        forall i | 0 <= i < |rest| ensures rest[i] in chosen <==> i < n - 1 {
          assert rest[i] == ids[i + 1];
        }
        PendingAfter(rest, n - 1, chosen);
      } else {
        forall i | 0 <= i < |rest| ensures rest[i] !in chosen {
          assert rest[i] == ids[i + 1];
        }
        PendingAfter(rest, 0, chosen);
      }
    }
  }

  lemma ScheduledAfter(ids: seq<RunId>, n: nat, done: set<RunId>, size: Option<nat>)
    requires Distinct(ids) && n <= |ids| && done == set id | id in ids[..n]
    ensures Scheduled(ids, done, size) == ids[n..if size.Some? then Least(n + size.value, |ids|) else |ids|]
  {
    hide Keeping;
    forall i | 0 <= i < |ids| ensures ids[i] in done <==> i < n {
      if i < n {
        assert ids[..n][i] == ids[i];
      }
    }
    PendingAfter(ids, n, done);
    assert ids[n..|ids|] == ids[n..];
  }

  lemma NextSlice(ids: seq<RunId>, executor: RunId -> Attempt, n: nat, size: Option<nat>)
    requires Distinct(ids) && n <= |ids|
    ensures RunSlice(ids, executor, FirstCores(ids, executor, n), size)
         == FirstCores(ids, executor, if size.Some? then Least(n + size.value, |ids|) else |ids|)
  {
    hide CoresOf, Scheduled, Least, Distinct;
    ScheduledAfter(ids, n, FirstCores(ids, executor, n).Keys, size);
    LeastWithin(n, size, ids);
    var m := if size.Some? then Least(n + size.value, |ids|) else |ids|;
    assert ids[..m] == ids[..n] + ids[n..m];
    CoresTogether(executor, ids[..n], ids[n..m]);
  }

  lemma LeastWithin(n: nat, size: Option<nat>, ids: seq<RunId>)
    requires n <= |ids|
    ensures size.Some? ==> n <= Least(n + size.value, |ids|) <= |ids|
  {
  }

  /** With a deterministic executor and no time exhaustion, any slicing records what one run records. */
  lemma {:induction false} AnySlicingAgrees(ids: seq<RunId>, executor: RunId -> Attempt, sizes: seq<nat>)
    requires Distinct(ids)
    ensures RunSlices(ids, executor, sizes) == FirstCores(ids, executor, Least(Total(sizes), |ids|))
    ensures Total(sizes) >= |ids| ==> RunSlices(ids, executor, sizes) == RunSlice(ids, executor, map[], None)
  {
    hide RunSlice;
    assert FirstCores(ids, executor, 0) == map[];
    if sizes != [] {
      var shorter := sizes[..|sizes| - 1];
      AnySlicingAgrees(ids, executor, shorter);
      NextSlice(ids, executor, Least(Total(shorter), |ids|), Some(sizes[|sizes| - 1]));
    }
    NextSlice(ids, executor, 0, None);
  }
}
