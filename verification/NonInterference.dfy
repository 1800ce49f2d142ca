/** Arms of one formation that differ in their treatment only. */
module NonInterference {
  import opened Wrappers
  import opened Ordering
  import opened World
  import opened Episodes
  import opened Beliefs
  import opened Retrieval
  import opened MemoryRuntime
  import opened Interventions
  import opened Harness

  /** The eight fields on which matched arms are compared. */
  predicate SameFields(e: Evidence, f: Evidence) {
    && e.record == f.record && e.input == f.input && e.actionPrompt == f.actionPrompt && e.actionKey == f.actionKey
    && e.languagePrompt == f.languagePrompt && e.languageKey == f.languageKey && e.memory == f.memory && e.ledger == f.ledger
  }

  predicate AllSameFields(a: seq<Evidence>, b: seq<Evidence>) {
    |a| == |b| && forall k | 0 <= k < |a| :: SameFields(a[k], b[k])
  }

  /** Runtimes that differ in specification and in what their records say, but not in what they do. */
  predicate Alike(i: IState, j: IState) {
    && i.instructions == j.instructions && i.active == j.active && i.shock == j.shock && i.memory == j.memory
    && (i.records == [] <==> j.records == [])
  }

  /** Treatments staged on both or on neither, to the same effect, and with no memory targets. */
  predicate StagedAlike(s: Option<Activation>, t: Option<Activation>) {
    && (s.Some? <==> t.Some?)
    && (s.Some? ==> s.value.memory == t.value.memory && s.value.active == t.value.active
                    && NoMemoryTargets(s.value.record) && NoMemoryTargets(t.value.record))
  }

  predicate NoMemoryTargets(r: InterventionRecord) {
    r.spec.condition == MemoryBlocking || r.spec.condition == MemoryReframing ==> r.targets == []
  }

  predicate CellsAlike(a: CellState, b: CellState) {
    a.sim == b.sim && Alike(a.runtime, b.runtime) && a.ledger == b.ledger && AllSameFields(a.evidence, b.evidence)
  }

  predicate PlansAlike(p: DayPlan, q: DayPlan) {
    && p.event == q.event && p.menu == q.menu && p.request == q.request && p.selected == q.selected && p.input == q.input
    && p.prepared.shock == q.prepared.shock && p.prepared.context == q.prepared.context
    && StagedAlike(p.prepared.staged, q.prepared.staged)
  }

  /** What is staged on the day's event, once the shock is observed. */
  function StagedFor(i: IState, e: Event): Option<Option<Activation>> {
    var shock := ObserveShock(i, e);
    if shock.None? then None else StageTreatment(i, shock.value, e.day)
  }

  predicate StagingAlike(i: IState, j: IState, e: Event) {
    var s, t := StagedFor(i, e), StagedFor(j, e);
    (s.Some? <==> t.Some?) && (s.Some? ==> StagedAlike(s.value, t.value))
  }

  lemma PreparedAlike(i: IState, j: IState, score: Scoring, e: Event, goalIds: seq<string>, seed: int)
    requires Alike(i, j) && StagingAlike(i, j, e)
    ensures Prepare(i, score, e, goalIds, seed).Some? <==> Prepare(j, score, e, goalIds, seed).Some?
    ensures Prepare(i, score, e, goalIds, seed).Some? ==>
              var p, q := Prepare(i, score, e, goalIds, seed).value, Prepare(j, score, e, goalIds, seed).value;
              p.shock == q.shock && p.context == q.context && StagedAlike(p.staged, q.staged)
  {
    hide StageTreatment, ContextSpec, ValidateShock, NoMemoryTargets;
  }

  lemma OverlaysAlike(i: IState, j: IState, s: Option<Activation>, t: Option<Activation>, day: nat)
    requires Alike(i, j) && StagedAlike(s, t)
    ensures OverlayFor(i, s, day).Some? <==> OverlayFor(j, t, day).Some?
    ensures OverlayFor(i, s, day).Some? ==> OverlayFor(i, s, day).value.directives == OverlayFor(j, t, day).value.directives
  {
    hide Lookup, NoMemoryTargets;
  }

  /** The overlay discloses instructions only, so the day is planned alike. */
  lemma DayPlannedAlike(scn: Scenario, o: Oracles, sim: SimState, i: IState, j: IState)
    requires Alike(i, j) && (EventFor(scn, sim).Some? ==> StagingAlike(i, j, EventFor(scn, sim).value))
    ensures PlanDay(scn, o, sim, i).Some? <==> PlanDay(scn, o, sim, j).Some?
    ensures PlanDay(scn, o, sim, i).Some? ==> PlansAlike(PlanDay(scn, o, sim, i).value, PlanDay(scn, o, sim, j).value)
  {
    hide Prepare, OverlayFor, ShownMemories, MenuOf, GoalsOf, SortedIds, EventFor, StagingAlike, NoMemoryTargets, CurrentBelief, EvidenceIds;
    if EventFor(scn, sim).Some? {
      var e := EventFor(scn, sim).value;
      var goals, seed := SortedIds(GoalsOf(scn, e.actionIds)), o.seedFor("memory-retrieval", e);
      PreparedAlike(i, j, o.score, e, goals, seed);
      if Prepare(i, o.score, e, goals, seed).Some? {
        var p, q := Prepare(i, o.score, e, goals, seed).value, Prepare(j, o.score, e, goals, seed).value;
        OverlaysAlike(i, j, p.staged, q.staged, e.day);
      }
    }
  }

  /** Acting looks at the event, the request and the model input only. */
  lemma ActedAlike(scn: Scenario, o: Oracles, sim: SimState, ledger: Ledger, p: DayPlan, q: DayPlan)
    requires PlansAlike(p, q)
    ensures ActDay(scn, o, sim, ledger, p) == ActDay(scn, o, sim, ledger, q)
  {
    hide StepRecordValid, SimValid, StagedAlike, CommitAction, ApplyConsequence;
  }

  lemma CommittedAlike(i: IState, j: IState, s: Option<Activation>, t: Option<Activation>, pending: PendingCommit, source: StepRecord)
    requires Alike(i, j) && StagedAlike(s, t)
    ensures CommitDay(i, s, pending, source).Some? <==> CommitDay(j, t, pending, source).Some?
    ensures CommitDay(i, s, pending, source).Some? ==> Alike(CommitDay(i, s, pending, source).value, CommitDay(j, t, pending, source).value)
    ensures TargetMemory(i, s) == TargetMemory(j, t)
  {
    hide CommitMem, NoMemoryTargets;
  }

  /** With no memory targets, neither arm's evidence can be refused where the other's is allowed. */
  lemma AllowedAlike(e: Event, t: Trace, t': Trace, r: StepRecord, after: IState, after': IState)
    requires t.selected == t'.selected && Alike(after, after')
    requires r.day == ACTIVATION_DAY ==> NoTargetsLast(after) && NoTargetsLast(after')
    ensures EvidenceAllowed(e, t, r, after) <==> EvidenceAllowed(e, t', r, after')
  {
    hide CheckpointOk, NoMemoryTargets, HeldOutSource, TargetsArePreShock;
    if after.records != [] && r.day == ACTIVATION_DAY {
      NoTargetsAllowed(after.memory.store, after.records[|after.records| - 1]);
      NoTargetsAllowed(after'.memory.store, after'.records[|after'.records| - 1]);
    }
  }

  predicate NoTargetsLast(i: IState) {
    i.records != [] ==> NoMemoryTargets(i.records[|i.records| - 1])
  }

  lemma NoTargetsAllowed(s: Store, r: InterventionRecord)
    requires NoMemoryTargets(r)
    ensures TargetsArePreShock(s, r)
  {
  }

  lemma LastRecordTargets(i: IState, staged: Option<Activation>, pending: PendingCommit, source: StepRecord)
    requires CommitDay(i, staged, pending, source).Some? && (staged.Some? ==> NoMemoryTargets(staged.value.record))
    requires staged.None? ==> i.records == []
    ensures NoTargetsLast(CommitDay(i, staged, pending, source).value)
  {
    hide CommitMem, NoMemoryTargets;
  }

  lemma PlanStages(scn: Scenario, o: Oracles, sim: SimState, i: IState)
    requires PlanDay(scn, o, sim, i).Some?
    ensures var p := PlanDay(scn, o, sim, i).value;
            EventFor(scn, sim) == Some(p.event) && (p.event.day == ACTIVATION_DAY ==> p.prepared.staged.Some?)
  {
    hide Activate, RestoreMem, ContextSpec, ObserveShock, OverlayFor, ShownMemories, MenuOf, GoalsOf, SortedIds, EventFor;
  }

  predicate DaysAlike(d: DayResult, d': DayResult) {
    && PlansAlike(d.plan, d'.plan) && d.acted == d'.acted && Alike(d.after, d'.after)
    && (d.plan.event.day == ACTIVATION_DAY ==> NoTargetsLast(d.after) && NoTargetsLast(d'.after))
  }

  lemma DayRunAlike(scn: Scenario, o: Oracles, sim: SimState, i: IState, j: IState, ledger: Ledger)
    requires Alike(i, j) && (EventFor(scn, sim).Some? ==> StagingAlike(i, j, EventFor(scn, sim).value))
    ensures RunDay(scn, o, sim, i, ledger).Some? <==> RunDay(scn, o, sim, j, ledger).Some?
    ensures RunDay(scn, o, sim, i, ledger).Some? ==> DaysAlike(RunDay(scn, o, sim, i, ledger).value, RunDay(scn, o, sim, j, ledger).value)
  {
    hide PlanDay, ActDay, CommitDay, StagingAlike, StagedAlike, EventFor, NoTargetsLast, StageSpec, TargetMemory;
    DayPlannedAlike(scn, o, sim, i, j);
    if PlanDay(scn, o, sim, i).Some? {
      var p, q := PlanDay(scn, o, sim, i).value, PlanDay(scn, o, sim, j).value;
      ActedAlike(scn, o, sim, ledger, p, q);
      if ActDay(scn, o, sim, ledger, p).Some? {
        var acted := ActDay(scn, o, sim, ledger, p).value;
        var i', j' := i.(shock := p.prepared.shock), j.(shock := q.prepared.shock);
        var pending := PendingOf(i, p, acted);
        CommittedAlike(i, j, p.prepared.staged, q.prepared.staged, pending, acted.record);
        CommittedAlike(i', j', p.prepared.staged, q.prepared.staged, pending, acted.record);
        if CommitDay(i', p.prepared.staged, pending, acted.record).Some? {
          PlanStages(scn, o, sim, i);
          PlanStages(scn, o, sim, j);
          StagedWithoutTargets(p.prepared.staged, q.prepared.staged);
          TargetsOnTheDay(i', p, pending, acted.record);
          TargetsOnTheDay(j', q, pending, acted.record);
        }
      }
    }
  }

  /** One day of two cells that are alike: both refuse it, or both do the same. */
  lemma StepAlike(scn: Scenario, o: Oracles, cell: CellId, cell': CellId, a: CellState, b: CellState)
    requires CellsAlike(a, b) && (EventFor(scn, a.sim).Some? ==> StagingAlike(a.runtime, b.runtime, EventFor(scn, a.sim).value))
    ensures StepCell(scn, o, cell, a).Some? <==> StepCell(scn, o, cell', b).Some?
    ensures StepCell(scn, o, cell, a).Some? ==> CellsAlike(StepCell(scn, o, cell, a).value, StepCell(scn, o, cell', b).value)
  {
    hide RunDay, EvidenceAllowed, AllSameFields, StagingAlike, StagedAlike, AdvanceSim, EventFor, NoTargetsLast, EvidenceOf;
    DayRunAlike(scn, o, a.sim, a.runtime, b.runtime, a.ledger);
    if RunDay(scn, o, a.sim, a.runtime, a.ledger).Some? {
      var d, d' := RunDay(scn, o, a.sim, a.runtime, a.ledger).value, RunDay(scn, o, b.sim, b.runtime, b.ledger).value;
      DayMeans(scn, o, a.sim, a.runtime, a.ledger);
      var t, t' := TraceOf(d.plan, d.acted), TraceOf(d'.plan, d'.acted);
      AllowedAlike(d.plan.event, t, t', d.acted.record, d.after, d'.after);
      EvidenceAlike(cell, cell', a.evidence, b.evidence, d.plan.prepared.context, t, t', d.acted.record, d.after, d'.after);
    }
  }

  lemma StagedWithoutTargets(s: Option<Activation>, t: Option<Activation>)
    requires StagedAlike(s, t)
    ensures s.Some? ==> NoMemoryTargets(s.value.record)
    ensures t.Some? ==> NoMemoryTargets(t.value.record)
  {
  }

  lemma TargetsOnTheDay(i: IState, p: DayPlan, pending: PendingCommit, source: StepRecord)
    requires CommitDay(i, p.prepared.staged, pending, source).Some? && (p.event.day == ACTIVATION_DAY ==> p.prepared.staged.Some?)
    requires p.prepared.staged.Some? ==> NoMemoryTargets(p.prepared.staged.value.record)
    ensures p.event.day == ACTIVATION_DAY ==> NoTargetsLast(CommitDay(i, p.prepared.staged, pending, source).value)
  {
    hide CommitDay, NoMemoryTargets, NoTargetsLast;
    if p.event.day == ACTIVATION_DAY {
      LastRecordTargets(i, p.prepared.staged, pending, source);
    }
  }

  lemma EvidenceAlike(cell: CellId, cell': CellId, before: seq<Evidence>, before': seq<Evidence>, context: DecisionContext, t: Trace, t': Trace,
                      r: StepRecord, after: IState, after': IState)
    requires AllSameFields(before, before') && t' == t.(overlay := t'.overlay) && after.memory == after'.memory
    ensures AllSameFields(before + [EvidenceOf(cell, before, context, t, r, after)], before' + [EvidenceOf(cell', before', context, t', r, after')])
  {
  }

  // ----- Before day 30 -----

  lemma NoStagingOnOtherDays(i: IState, j: IState, e: Event)
    requires Alike(i, j) && e.day != ACTIVATION_DAY
    ensures StagingAlike(i, j, e)
  {
    hide ValidateShock;
  }

  lemma EventDay(scn: Scenario, sim: SimState)
    requires EventFor(scn, sim).Some?
    ensures EventFor(scn, sim).value.day == sim.nextDay
  {
  }

  lemma {:induction false} RunsAlikeOnOtherDays(scn: Scenario, o: Oracles, cell: CellId, cell': CellId, a: CellState, b: CellState, day: nat)
    requires CellsAlike(a, b) && (day < ACTIVATION_DAY || a.sim.nextDay > ACTIVATION_DAY)
    ensures RunThrough(scn, o, cell, a, day).Some? <==> RunThrough(scn, o, cell', b, day).Some?
    ensures RunThrough(scn, o, cell, a, day).Some? ==>
              CellsAlike(RunThrough(scn, o, cell, a, day).value, RunThrough(scn, o, cell', b, day).value)
    decreases day + 1 - a.sim.nextDay
  {
    hide StepCell, Alike, AllSameFields, StagingAlike, EventFor;
    if a.sim.nextDay <= day {
      if EventFor(scn, a.sim).Some? {
        EventDay(scn, a.sim);
        NoStagingOnOtherDays(a.runtime, b.runtime, EventFor(scn, a.sim).value);
      }
      StepAlike(scn, o, cell, cell', a, b);
      var next := StepCell(scn, o, cell, a);
      if next.Some? && next.value.sim.nextDay > a.sim.nextDay {
        RunsAlikeOnOtherDays(scn, o, cell, cell', next.value, StepCell(scn, o, cell', b).value, day);
      }
    }
  }

  lemma StartsAlike(scn: Scenario, cell: CellId, cell': CellId, config: Config, relationshipId: string, instructions: seq<Directive>)
    ensures CellsAlike(StartCell(scn, cell, config, relationshipId, instructions), StartCell(scn, cell', config, relationshipId, instructions))
  {
  }

  /** Arms that differ in their treatment only agree on all eight compared fields on every day before day 30. */
  lemma ArmsAgreeBeforeDay30(scn: Scenario, o: Oracles, cell: CellId, cell': CellId, config: Config, relationshipId: string,
                             instructions: seq<Directive>, day: nat)
    requires day < ACTIVATION_DAY
    ensures var a := RunThrough(scn, o, cell, StartCell(scn, cell, config, relationshipId, instructions), day);
            var b := RunThrough(scn, o, cell', StartCell(scn, cell', config, relationshipId, instructions), day);
            && (a.Some? <==> b.Some?)
            && (a.Some? ==> AllSameFields(a.value.evidence, b.value.evidence) && a.value.sim == b.value.sim)
  {
    hide StartCell, RunThrough, AllSameFields, Alike;
    StartsAlike(scn, cell, cell', config, relationshipId, instructions);
    RunsAlikeOnOtherDays(scn, o, cell, cell', StartCell(scn, cell, config, relationshipId, instructions),
                         StartCell(scn, cell', config, relationshipId, instructions), day);
  }

  // ----- A treatment that did nothing -----

  lemma {:induction false} RunExtendsEvidence(scn: Scenario, o: Oracles, cell: CellId, c: CellState, day: nat)
    requires RunThrough(scn, o, cell, c, day).Some?
    ensures c.evidence <= RunThrough(scn, o, cell, c, day).value.evidence
    decreases day + 1 - c.sim.nextDay
  {
    hide StepCell;
    if c.sim.nextDay <= day {
      StepAddsEvidence(scn, o, cell, c);
      RunExtendsEvidence(scn, o, cell, StepCell(scn, o, cell, c).value, day);
    }
  }

  lemma StepAddsEvidence(scn: Scenario, o: Oracles, cell: CellId, c: CellState)
    requires StepCell(scn, o, cell, c).Some?
    ensures c.evidence <= StepCell(scn, o, cell, c).value.evidence
  {
    hide RunDay, EvidenceAllowed, EvidenceOf, AdvanceSim, TraceOf, StepCell;
    CellByStages(scn, o, cell, c);
  }

  /** What the comparison of finished cells looks at: their evidence of the days before day 30. */
  lemma FinishedArmsAgreeBeforeDay30(scn: Scenario, o: Oracles, cell: CellId, cell': CellId, config: Config, relationshipId: string,
                                     instructions: seq<Directive>, last: nat)
    requires SpecValid(cell.spec) && SpecValid(cell'.spec) && Distinct(InstructionIds(instructions)) && last >= ACTIVATION_DAY - 1
    requires RunThrough(scn, o, cell, StartCell(scn, cell, config, relationshipId, instructions), last).Some?
    requires RunThrough(scn, o, cell', StartCell(scn, cell', config, relationshipId, instructions), last).Some?
    ensures var a := RunThrough(scn, o, cell, StartCell(scn, cell, config, relationshipId, instructions), last).value.evidence;
            var b := RunThrough(scn, o, cell', StartCell(scn, cell', config, relationshipId, instructions), last).value.evidence;
            |a| >= ACTIVATION_DAY - 1 && |b| >= ACTIVATION_DAY - 1 && AllSameFields(a[..ACTIVATION_DAY - 1], b[..ACTIVATION_DAY - 1])
  {
    hide RunThrough, StartCell, CellOk, SpecValid, Distinct, AllSameFields;
    ArmsAgreeBeforeDay30(scn, o, cell, cell', config, relationshipId, instructions, ACTIVATION_DAY - 1);
    FirstDays(scn, o, cell, config, relationshipId, instructions, last);
    FirstDays(scn, o, cell', config, relationshipId, instructions, last);
  }

  lemma FirstDays(scn: Scenario, o: Oracles, cell: CellId, config: Config, relationshipId: string, instructions: seq<Directive>, last: nat)
    requires SpecValid(cell.spec) && Distinct(InstructionIds(instructions)) && last >= ACTIVATION_DAY - 1
    requires RunThrough(scn, o, cell, StartCell(scn, cell, config, relationshipId, instructions), last).Some?
    ensures var start := StartCell(scn, cell, config, relationshipId, instructions);
            var paused, whole := RunThrough(scn, o, cell, start, ACTIVATION_DAY - 1), RunThrough(scn, o, cell, start, last).value.evidence;
            paused.Some? && |whole| >= ACTIVATION_DAY - 1 && whole[..ACTIVATION_DAY - 1] == paused.value.evidence
  {
    hide RunThrough, StartCell, CellOk, SpecValid, Distinct;
    var start := StartCell(scn, cell, config, relationshipId, instructions);
    StartIsOk(scn, cell, config, relationshipId, instructions);
    StartsOnDayOne(scn, cell, config, relationshipId, instructions);
    RunInTwoParts(scn, o, cell, start, ACTIVATION_DAY - 1, last);
    RunKeepsCellOk(scn, o, cell, start, ACTIVATION_DAY - 1);
    var paused := RunThrough(scn, o, cell, start, ACTIVATION_DAY - 1).value;
    EvidenceByDay(scn, cell, paused);
    RunExtendsEvidence(scn, o, cell, paused, last);
  }

  lemma NoOpHasNoTargets(spec: Spec, m: MemState, active: seq<string>, shock: Option<ShockValidation>)
    requires Activate(spec, m, active, shock, [], ACTIVATION_DAY).Some?
    ensures var r := Activate(spec, m, active, shock, [], ACTIVATION_DAY).value.record;
            && (r.noOp.Some? ==> r.targets == [])
            && (spec.condition == NoTreatment ==> r.noOp.Some?)
            && r.spec == spec
  {
    hide TakeSnapshot, IsolationOk, Among, PartnerTargets, WithReading, ReframeAll, SortedIds;
  }

  lemma NoOpStagesAlike(i: IState, j: IState, e: Event)
    requires IOk(i, e.day) && IOk(j, e.day) && Alike(i, j) && e.day == ACTIVATION_DAY && i.spec.condition == NoTreatment
    requires StagedFor(j, e).Some? ==> StagedFor(j, e).value.Some? && StagedFor(j, e).value.value.record.noOp.Some?
    ensures StagingAlike(i, j, e)
  {
    hide IOk, Activate, StageTreatment, NoMemoryTargets;
    SoundRuntime(i, e.day);
    SoundRuntime(j, e.day);
    StagingIsSafe(i, i.shock, e.day);
    StagingIsSafe(j, j.shock, e.day);
    NoOpHasNoTargets(i.spec, i.memory, i.active, i.shock);
    NoOpHasNoTargets(j.spec, j.memory, j.active, j.shock);
    NoneAppliedYet([], i.spec.interventionId);
    NoneAppliedYet([], j.spec.interventionId);
    ActivationIsIsolated(i.spec, i.memory, i.active, i.shock, []);
    ActivationIsIsolated(j.spec, j.memory, j.active, j.shock, []);
    NoTargetsAtAll(StagedFor(i, e).value.value.record);
    NoTargetsAtAll(StagedFor(j, e).value.value.record);
  }

  lemma NoTargetsAtAll(r: InterventionRecord)
    ensures r.targets == [] ==> NoMemoryTargets(r)
  {
  }

  lemma SoundRuntime(i: IState, day: nat)
    requires IOk(i, day) && day == ACTIVATION_DAY
    ensures SpecValid(i.spec) && MemOk(i.memory) && i.shock.Some? && i.records == []
  {
    hide MemOk, SpecValid;
  }

  /** The record of a day-30 step is the staged one, and later days keep it. */
  lemma Day30Records(scn: Scenario, o: Oracles, cell: CellId, c: CellState)
    requires CellOk(scn, cell, c) && c.sim.nextDay == ACTIVATION_DAY && StepCell(scn, o, cell, c).Some?
    ensures EventFor(scn, c.sim).Some? && StagedFor(c.runtime, EventFor(scn, c.sim).value).Some?
    ensures var staged := StagedFor(c.runtime, EventFor(scn, c.sim).value).value;
            staged.Some? && StepCell(scn, o, cell, c).value.runtime.records == [staged.value.record]
  {
    hide RunDay, EvidenceAllowed, EvidenceOf, AdvanceSim, StagedFor, EventFor, IOk, SimValid, EvidenceLinked;
    CellRuntimes(scn, cell, c);
    SoundRuntime(c.runtime, c.sim.nextDay);
    DayRecords(scn, o, c.sim, c.runtime, c.ledger);
    DayMeans(scn, o, c.sim, c.runtime, c.ledger);
  }

  /** A day appends the staged record, if there is one, and only on day 30. */
  lemma DayRecords(scn: Scenario, o: Oracles, sim: SimState, i: IState, ledger: Ledger)
    requires RunDay(scn, o, sim, i, ledger).Some?
    ensures EventFor(scn, sim).Some? && StagedFor(i, EventFor(scn, sim).value).Some?
    ensures var staged := StagedFor(i, EventFor(scn, sim).value).value;
            && (staged.Some? <==> sim.nextDay == ACTIVATION_DAY)
            && RunDay(scn, o, sim, i, ledger).value.after.records == i.records + (if staged.Some? then [staged.value.record] else [])
  {
    hide PlanDay, ActDay, PendingOf, StagedFor, EventFor, CommitMem, TargetMemory;
    PlanStages(scn, o, sim, i);
    EventDay(scn, sim);
    PlanUsesStaging(scn, o, sim, i);
    OnlyStagedOnDay30(i, EventFor(scn, sim).value);
  }

  lemma OnlyStagedOnDay30(i: IState, e: Event)
    ensures StagedFor(i, e).Some? ==> (StagedFor(i, e).value.Some? <==> e.day == ACTIVATION_DAY)
  {
    hide Activate, RestoreMem, ObserveShock;
  }

  lemma PlanUsesStaging(scn: Scenario, o: Oracles, sim: SimState, i: IState)
    requires PlanDay(scn, o, sim, i).Some?
    ensures var p := PlanDay(scn, o, sim, i).value;
            StagedFor(i, p.event) == Some(p.prepared.staged) && ObserveShock(i, p.event) == Some(p.prepared.shock)
  {
    hide ContextSpec, OverlayFor, ShownMemories, MenuOf, GoalsOf, SortedIds, EventFor, StageTreatment, ObserveShock;
  }

  lemma LaterDaysKeepRecords(scn: Scenario, o: Oracles, cell: CellId, c: CellState)
    requires c.sim.nextDay > ACTIVATION_DAY && StepCell(scn, o, cell, c).Some?
    ensures StepCell(scn, o, cell, c).value.runtime.records == c.runtime.records
  {
    hide RunDay, EvidenceAllowed, EvidenceOf, AdvanceSim, EventFor, StagedFor;
    DayRecords(scn, o, c.sim, c.runtime, c.ledger);
  }

  lemma {:induction false} RunKeepsRecords(scn: Scenario, o: Oracles, cell: CellId, c: CellState, day: nat)
    requires c.sim.nextDay > ACTIVATION_DAY && RunThrough(scn, o, cell, c, day).Some?
    ensures RunThrough(scn, o, cell, c, day).value.runtime.records == c.runtime.records
    decreases day + 1 - c.sim.nextDay
  {
    hide StepCell;
    if c.sim.nextDay <= day {
      LaterDaysKeepRecords(scn, o, cell, c);
      RunKeepsRecords(scn, o, cell, StepCell(scn, o, cell, c).value, day);
    }
  }

  predicate DidNothing(records: seq<InterventionRecord>) {
    records != [] && records[0].noOp.Some?
  }

  /** An arm whose treatment was recorded as doing nothing runs as the no-treatment arm does, on every day. */
  lemma {:induction false} NoOpArmIsNoTreatmentArm(scn: Scenario, o: Oracles, cell: CellId, cell': CellId, a: CellState, b: CellState, day: nat)
    requires CellOk(scn, cell, a) && CellOk(scn, cell', b) && CellsAlike(a, b) && cell.spec.condition == NoTreatment
    requires RunThrough(scn, o, cell', b, day).Some?
    requires a.sim.nextDay <= ACTIVATION_DAY <= day ==> DidNothing(RunThrough(scn, o, cell', b, day).value.runtime.records)
    ensures RunThrough(scn, o, cell, a, day).Some?
    ensures CellsAlike(RunThrough(scn, o, cell, a, day).value, RunThrough(scn, o, cell', b, day).value)
    decreases day + 1 - a.sim.nextDay
  {
    hide StepCell, Alike, AllSameFields, StagingAlike, EventFor, CellOk, StagedFor, IOk;
    if a.sim.nextDay <= day {
      var next := StepCell(scn, o, cell', b).value;
      StepKeepsCellOk(scn, o, cell', b);
      if EventFor(scn, a.sim).Some? {
        var e := EventFor(scn, a.sim).value;
        EventDay(scn, a.sim);
        if e.day == ACTIVATION_DAY {
          Day30Records(scn, o, cell', b);
          RunKeepsRecords(scn, o, cell', next, day);
          CellRuntimes(scn, cell, a);
          CellRuntimes(scn, cell', b);
          AlikeOf(a, b);
          NoOpStagesAlike(a.runtime, b.runtime, e);
        } else {
          AlikeOf(a, b);
          NoStagingOnOtherDays(a.runtime, b.runtime, e);
        }
      }
      StepAlike(scn, o, cell, cell', a, b);
      StepKeepsCellOk(scn, o, cell, a);
      NoOpArmIsNoTreatmentArm(scn, o, cell, cell', StepCell(scn, o, cell, a).value, next, day);
    }
  }

  /** From the start of both arms, for every length of run. */
  lemma NoOpArmFromStart(scn: Scenario, o: Oracles, cell: CellId, cell': CellId, config: Config, relationshipId: string,
                         instructions: seq<Directive>, day: nat)
    requires SpecValid(cell.spec) && SpecValid(cell'.spec) && cell.spec.condition == NoTreatment && Distinct(InstructionIds(instructions))
    requires RunThrough(scn, o, cell', StartCell(scn, cell', config, relationshipId, instructions), day).Some?
    requires day >= ACTIVATION_DAY ==>
               DidNothing(RunThrough(scn, o, cell', StartCell(scn, cell', config, relationshipId, instructions), day).value.runtime.records)
    ensures var a := RunThrough(scn, o, cell, StartCell(scn, cell, config, relationshipId, instructions), day);
            var b := RunThrough(scn, o, cell', StartCell(scn, cell', config, relationshipId, instructions), day);
            a.Some? && a.value.sim == b.value.sim && AllSameFields(a.value.evidence, b.value.evidence)
  {
    hide StartCell, RunThrough, AllSameFields, Alike, CellOk, SpecValid;
    StartsAlike(scn, cell, cell', config, relationshipId, instructions);
    StartIsOk(scn, cell, config, relationshipId, instructions);
    StartIsOk(scn, cell', config, relationshipId, instructions);
    NoOpArmIsNoTreatmentArm(scn, o, cell, cell', StartCell(scn, cell, config, relationshipId, instructions),
                            StartCell(scn, cell', config, relationshipId, instructions), day);
  }

  lemma CellRuntimes(scn: Scenario, cell: CellId, c: CellState)
    requires CellOk(scn, cell, c)
    ensures IOk(c.runtime, c.sim.nextDay) && c.runtime.spec == cell.spec
  {
    hide IOk, SimValid, EvidenceLinked;
  }

  lemma AlikeOf(a: CellState, b: CellState)
    requires CellsAlike(a, b)
    ensures Alike(a.runtime, b.runtime) && a.sim == b.sim
  {
  }
}
