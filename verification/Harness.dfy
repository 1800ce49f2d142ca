/** One factorial cell: four ledgers that advance by whole days, and the checkpoint that binds them. */
module Harness {
  import opened Wrappers
  import opened Ordering
  import opened World
  import opened Episodes
  import opened Beliefs
  import opened Retrieval
  import opened MemoryRuntime
  import opened Interventions

  datatype Scenario = Scenario(
    header: Header,
    modelConfigId: string,
    events: seq<Event>,
    actions: map<string, Action>,
    consequences: map<string, Consequence>,
    dailyTotal: int)

  /** The deterministic parts that are not modelled: scoring, seeds, the model's choice, and prompts. */
  datatype Oracles = Oracles(
    score: Scoring,
    seedFor: (string, Event) -> int,
    choose: (ModelInput, int) -> string,
    renderAction: ModelInput -> string,
    renderLanguage: (ModelInput, Commitment) -> string)

  /** Which cell of the matrix this is; `components` stands for the digests the arms share. */
  datatype CellId = CellId(formation: string, spec: Spec, seed: int, components: string)

  // ----- The model's ledger -----

  datatype ActionKey = ActionKey(modelConfigId: string, input: ModelInput, prompt: string, seed: int)

  datatype LanguageKey = LanguageKey(commitment: Commitment, modelConfigId: string, input: ModelInput, prompt: string, seed: int)

  /** The model ledger's digest, as the chain it is the digest of. */
  datatype Ledger =
    | Start(base: BaseRun)
    | ActionEntry(previous: Ledger, key: ActionKey, selection: Selection)
    | LanguageEntry(previous: Ledger, languageKey: LanguageKey)

  function BaseRunOf(scn: Scenario): BaseRun {
    BaseRun(scn.header.formation, scn.header.seed, scn.header.scenarioId, scn.modelConfigId)
  }

  // ----- Evidence -----

  datatype Evidence = Evidence(
    cell: CellId,
    index: nat,
    day: nat,
    shockConfirmed: bool,
    record: StepRecord,
    selected: seq<SelectedMemory>,
    retrieval: RetrievalRecord,
    memory: MemState,
    intervention: Option<InterventionRecord>,
    targets: seq<string>,
    overlay: Overlay,
    input: ModelInput,
    actionPrompt: string,
    actionKey: ActionKey,
    languagePrompt: string,
    languageKey: LanguageKey,
    ledger: Ledger,
    interventions: seq<InterventionRecord>,
    previous: Option<Evidence>)

  datatype CellState = CellState(sim: SimState, runtime: IState, ledger: Ledger, evidence: seq<Evidence>)

  function LastEvidence(evidence: seq<Evidence>): Option<Evidence> {
    if evidence == [] then None else Some(evidence[|evidence| - 1])
  }

  // ----- Preparing a day -----

  function MenuOf(scn: Scenario, ids: seq<string>): Option<seq<MenuItem>> {
    if ids == [] then Some([])
    else if ids[0] !in scn.actions || scn.actions[ids[0]].cost > scn.dailyTotal then None
    else
      var rest := MenuOf(scn, ids[1..]);
      var a := scn.actions[ids[0]];
      if rest.None? then None else Some([MenuItem(a.actionId, a.description, a.cost)] + rest.value)
  }

  function GoalsOf(scn: Scenario, ids: seq<string>): seq<string> {
    if ids == [] then []
    else (if ids[0] in scn.actions then scn.actions[ids[0]].goalIds else []) + GoalsOf(scn, ids[1..])
  }

  function KeepFirst(s: seq<string>): seq<string> {
    if s == [] then [] else [s[0]] + Among(KeepFirst(s[1..]), [s[0]], false)
  }

  function ShownMemory(m: Memory): SelectedMemory {
    var i := m.interpretation;
    SelectedMemory(m.memoryId, m.summary, TrueFacts(m.facts),
                   if i.Some? then Some(i.value.interpretationId) else None,
                   if i.Some? then Some(i.value.proposition) else None,
                   if i.Some? then Some(i.value.revision) else None,
                   KeepFirst([m.sourceEventId, m.provenance.candidateId] + FactIds(m.facts)))
  }

  /** The retrieved memories as the model is shown them, from the memory in force for the action. */
  function ShownMemories(s: Store, ids: seq<string>): Option<seq<SelectedMemory>> {
    if ids == [] then Some([])
    else
      var m := Get(s, ids[0]);
      var rest := ShownMemories(s, ids[1..]);
      if m.None? || rest.None? then None else Some([ShownMemory(m.value)] + rest.value)
  }

  function EvidenceIds(b: Option<Belief>): seq<string> {
    if b.None? then [] else b.value.supporting + b.value.contradicting
  }

  datatype DayPlan = DayPlan(
    event: Event,
    menu: seq<MenuItem>,
    prepared: Prepared,
    overlay: Overlay,
    request: Request,
    selected: seq<SelectedMemory>,
    input: ModelInput)

  function RequestOf(scn: Scenario, e: Event, menu: seq<MenuItem>, c: DecisionContext): Request {
    Request(RequestId(e.day, e.group), e.eventId, e.day, TrueFacts(e.facts), scn.dailyTotal, menu, c.retrievedIds, c.beliefs)
  }

  /** The model input discloses the instructions in force and nothing else of the treatment. */
  function InputOf(scn: Scenario, e: Event, r: Request, goals: seq<string>, selected: seq<SelectedMemory>, belief: Option<Belief>, o: Overlay): ModelInput {
    ModelInput(BaseRunOf(scn), r.requestId, r.eventId, r.day, r.facts, goals, r.points, r.menu, selected,
               if belief.Some? then Some(ViewOfBelief(belief.value)) else None, EvidenceIds(belief), o.directives)
  }

  function EventFor(scn: Scenario, sim: SimState): Option<Event> {
    if sim.nextDay == 0 || sim.nextDay > LAST_DAY || sim.nextDay > |scn.events| then None
    else
      var e := scn.events[sim.nextDay - 1];
      if e.day != sim.nextDay || e.phase != PhaseForDay(e.day) then None else Some(e)
  }

  function PlanDay(scn: Scenario, o: Oracles, sim: SimState, i: IState): Option<DayPlan> {
    var event := EventFor(scn, sim);
    if event.None? then None
    else
      var e := event.value;
      var menu := MenuOf(scn, e.actionIds);
      if menu.None? then None
      else
        var goals := SortedIds(GoalsOf(scn, e.actionIds));
        var prepared := Prepare(i, o.score, e, goals, o.seedFor("memory-retrieval", e));
        if prepared.None? then None
        else
          var p := prepared.value;
          var overlay := OverlayFor(i, p.staged, e.day);
          var selected := ShownMemories(TargetMemory(i, p.staged).store, p.context.retrievedIds);
          if overlay.None? || selected.None? then None
          else
            var request := RequestOf(scn, e, menu.value, p.context);
            Some(DayPlan(e, menu.value, p, overlay.value, request, selected.value,
                         InputOf(scn, e, request, goals, selected.value, CurrentBelief(i.memory), overlay.value)))
  }

  // ----- Acting -----

  datatype Acted = Acted(
    action: Action,
    actionPrompt: string,
    actionKey: ActionKey,
    languagePrompt: string,
    languageKey: LanguageKey,
    ledger: Ledger,
    record: StepRecord)

  function SelectionOf(o: Oracles, plan: DayPlan, action: Action, seed: int): Selection {
    Selection(DecisionId(action.actionId, plan.input, seed), action.actionId, action.cost, plan.request.retrievedIds)
  }

  function CommitAction(scn: Scenario, e: Event, s: Selection): Option<Commitment> {
    if s.actionId !in e.actionIds || s.actionId !in scn.actions then None
    else
      var a := scn.actions[s.actionId];
      if s.spent != a.cost || a.cost <= 0 || a.consequenceId !in e.consequenceIds then None
      else Some(Commitment(e.eventId, s.decisionId, s.actionId, a.consequenceId, a.cost))
  }

  function ApplyConsequence(scn: Scenario, c: Commitment): Option<Application> {
    if c.consequenceId !in scn.consequences || scn.consequences[c.consequenceId].delta != -c.cost then None
    else Some(Application(c, c.consequenceId, -c.cost, scn.consequences[c.consequenceId].progress))
  }

  function Response(actionId: string): string {
    "Mock decision: " + actionId + "."
  }

  function Foregone(ids: seq<string>, chosen: string): seq<string> {
    Among(ids, [chosen], false)
  }

  function CandidateIds(ms: seq<MemoryCandidate>): seq<string> {
    if ms == [] then [] else [ms[0].memoryId] + CandidateIds(ms[1..])
  }

  function StepRecordOf(scn: Scenario, o: Oracles, sim: SimState, e: Event, r: Request, s: Selection, action: Action, c: Commitment,
                        a: Application, response: string): StepRecord {
    StepRecord(if e.day == 0 then 0 else e.day - 1, e.day, sim.header, e, r, o.seedFor("action-selection", e), o.seedFor("public-language", e),
               Foregone(e.actionIds, s.actionId), action.partnerDirected, LastRecord(sim.records), e.day >= ACTIVATION_DAY, s,
               response, c, scn.dailyTotal, scn.dailyTotal - c.cost, a)
  }

  /** What a day has come to when its consequence is applied; `None` is a day that does not get so far. */
  datatype Chosen = Chosen(action: Action, selection: Selection, commitment: Commitment, application: Application)

  function ChosenOf(scn: Scenario, o: Oracles, plan: DayPlan): Option<Chosen> {
    var seed := o.seedFor("action-selection", plan.event);
    var chosen := o.choose(plan.input, seed);
    if chosen !in scn.actions then None
    else
      var selection := SelectionOf(o, plan, scn.actions[chosen], seed);
      var commitment := CommitAction(scn, plan.event, selection);
      if commitment.None? || commitment.value.cost > scn.dailyTotal then None
      else
        var application := ApplyConsequence(scn, commitment.value);
        if application.None? then None else Some(Chosen(scn.actions[chosen], selection, commitment.value, application.value))
  }

  /** The action is chosen, committed, debited and its consequence applied before the public language. */
  function ActDay(scn: Scenario, o: Oracles, sim: SimState, ledger: Ledger, plan: DayPlan): Option<Acted> {
    var e := plan.event;
    var seed := o.seedFor("action-selection", e);
    var chosen := o.choose(plan.input, seed);
    if chosen !in scn.actions then None
    else
      var action := scn.actions[chosen];
      var prompt := o.renderAction(plan.input);
      var key := ActionKey(scn.modelConfigId, plan.input, prompt, seed);
      var selection := SelectionOf(o, plan, action, seed);
      var afterAction := ActionEntry(ledger, key, selection);
      var commitment := CommitAction(scn, e, selection);
      if commitment.None? || commitment.value.cost > scn.dailyTotal then None
      else
        var application := ApplyConsequence(scn, commitment.value);
        if application.None? then None
        else
          var text := o.renderLanguage(plan.input, commitment.value);
          var languageKey := LanguageKey(commitment.value, scn.modelConfigId, plan.input, text, o.seedFor("public-language", e));
          var record := StepRecordOf(scn, o, sim, e, plan.request, selection, action, commitment.value, application.value, Response(selection.actionId));
          if !StepRecordValid(record) || !SimValid(AdvanceSim(sim, record)) then None
          else Some(Acted(action, prompt, key, text, languageKey, LanguageEntry(afterAction, languageKey), record))
  }

  /** The rest of the day once its consequence is applied: the language, then the record. */
  lemma ActByChoice(scn: Scenario, o: Oracles, sim: SimState, ledger: Ledger, plan: DayPlan)
    ensures var c := ChosenOf(scn, o, plan);
            if c.None? then ActDay(scn, o, sim, ledger, plan).None?
            else
              var e, (action, selection, commitment, application) := plan.event, (c.value.action, c.value.selection, c.value.commitment, c.value.application);
              var prompt, seed := o.renderAction(plan.input), o.seedFor("action-selection", e);
              var key := ActionKey(scn.modelConfigId, plan.input, prompt, seed);
              var text := o.renderLanguage(plan.input, commitment);
              var languageKey := LanguageKey(commitment, scn.modelConfigId, plan.input, text, o.seedFor("public-language", e));
              var record := StepRecordOf(scn, o, sim, e, plan.request, selection, action, commitment, application, Response(selection.actionId));
              ActDay(scn, o, sim, ledger, plan)
              == if !StepRecordValid(record) || !SimValid(AdvanceSim(sim, record)) then None
                 else Some(Acted(action, prompt, key, text, languageKey, LanguageEntry(ActionEntry(ledger, key, selection), languageKey), record))
  {
    hide StepRecordValid, SimValid, CommitAction, ApplyConsequence, AdvanceSim, StepRecordOf, Response;
  }

  // ----- Evidence of the day -----

  /** Treatments of memories may only name partner memories from before the shock. */
  predicate TargetsArePreShock(s: Store, r: InterventionRecord) {
    r.spec.condition == MemoryBlocking || r.spec.condition == MemoryReframing ==>
      forall id | id in r.targets ::
        Find(s.episodes, id).Some? && Find(s.episodes, id).value.day < SHOCK_DAY && Find(s.episodes, id).value.partnerRelated
  }

  function ShownIds(ms: seq<SelectedMemory>): (r: seq<string>)
    ensures |r| == |ms|
  {
    if ms == [] then [] else [ms[0].memoryId] + ShownIds(ms[1..])
  }

  /** What the model keeps of one day's two calls. */
  datatype Trace = Trace(
    requestId: RequestId,
    input: ModelInput,
    selected: seq<SelectedMemory>,
    overlay: Overlay,
    actionPrompt: string,
    actionKey: ActionKey,
    languagePrompt: string,
    languageKey: LanguageKey,
    ledger: Ledger)

  function TraceOf(plan: DayPlan, acted: Acted): Trace {
    Trace(plan.request.requestId, plan.input, plan.selected, plan.overlay, acted.actionPrompt, acted.actionKey, acted.languagePrompt,
          acted.languageKey, acted.ledger)
  }

  /** The checks made before a day's evidence is accepted. */
  predicate EvidenceAllowed(event: Event, trace: Trace, record: StepRecord, after: IState) {
    && event.eventId == record.event.eventId && event.day == record.day
    && ShownIds(trace.selected) == record.selection.retrievedIds
    && CheckpointOk(after.memory)
    && (record.day >= ACTIVATION_DAY <==> after.records != [])
    && (record.day == ACTIVATION_DAY && after.records != [] ==> TargetsArePreShock(after.memory.store, after.records[|after.records| - 1]))
    && (record.day == SHOCK_DAY ==> after.shock.Some? && after.shock.value.event.eventId == event.eventId && HeldOutSource() in event.sourceIds)
    && Distinct(ShownIds(trace.selected))
    && record.total == 10
  }

  function EvidenceOf(cell: CellId, before: seq<Evidence>, context: DecisionContext, trace: Trace, record: StepRecord, after: IState): Evidence {
    var applied := LastApplied(after.records);
    Evidence(cell, record.index, record.day, record.day == SHOCK_DAY, record, trace.selected, context.retrieval, after.memory, applied,
             if record.day == ACTIVATION_DAY && applied.Some? then applied.value.targets else [],
             trace.overlay, trace.input, trace.actionPrompt, trace.actionKey, trace.languagePrompt, trace.languageKey, trace.ledger,
             after.records, LastEvidence(before))
  }

  // ----- One day of one cell -----

  /** The simulation's part of a day: the plan, the act, and the runtime after the commit. */
  datatype DayResult = DayResult(plan: DayPlan, acted: Acted, after: IState)

  function PendingOf(i: IState, p: DayPlan, a: Acted): PendingCommit {
    StageSpec(TargetMemory(i, p.prepared.staged).config, p.event, a.action, a.record.consequence, p.prepared.context)
  }

  function RunDay(scn: Scenario, o: Oracles, sim: SimState, i: IState, ledger: Ledger): Option<DayResult> {
    var plan := PlanDay(scn, o, sim, i);
    if plan.None? then None
    else
      var acted := ActDay(scn, o, sim, ledger, plan.value);
      if acted.None? then None
      else
        var after := CommitDay(i.(shock := plan.value.prepared.shock), plan.value.prepared.staged, PendingOf(i, plan.value, acted.value), acted.value.record);
        if after.None? then None else Some(DayResult(plan.value, acted.value, after.value))
  }

  /** A whole day, or nothing: `None` is a day some stage of which raises. */
  function StepCell(scn: Scenario, o: Oracles, cell: CellId, c: CellState): Option<CellState> {
    var day := RunDay(scn, o, c.sim, c.runtime, c.ledger);
    if day.None? then None
    else
      var (p, a, after) := (day.value.plan, day.value.acted, day.value.after);
      var trace := TraceOf(p, a);
      if !EvidenceAllowed(p.event, trace, a.record, after) then None
      else Some(CellState(AdvanceSim(c.sim, a.record), after, a.ledger,
                          c.evidence + [EvidenceOf(cell, c.evidence, p.prepared.context, trace, a.record, after)]))
  }

  function StartCell(scn: Scenario, cell: CellId, config: Config, relationshipId: string, instructions: seq<Directive>): CellState {
    CellState(InitialSim(scn.header), InitialI(cell.spec, InitialMem(config, relationshipId), instructions), Start(BaseRunOf(scn)), [])
  }

  /** Runs through a day; `None` is a run some day of which raises. */
  function RunThrough(scn: Scenario, o: Oracles, cell: CellId, c: CellState, day: nat): Option<CellState>
    decreases day + 1 - c.sim.nextDay
  {
    if c.sim.nextDay > day then Some(c)
    else
      var next := StepCell(scn, o, cell, c);
      if next.None? || next.value.sim.nextDay <= c.sim.nextDay then None else RunThrough(scn, o, cell, next.value, day)
  }

  // ----- What holds of every reachable cell -----

  predicate EvidenceLinked(cell: CellId, evidence: seq<Evidence>, k: nat)
    requires k < |evidence|
  {
    evidence[k].cell == cell && evidence[k].index == k && evidence[k].previous == LastEvidence(evidence[..k])
  }

  ghost predicate CellOk(scn: Scenario, cell: CellId, c: CellState) {
    && SimValid(c.sim) && c.sim.header == scn.header
    && IOk(c.runtime, c.sim.nextDay) && c.runtime.spec == cell.spec
    && |c.evidence| == c.sim.nextDay - 1
    && (forall k | 0 <= k < |c.evidence| :: EvidenceLinked(cell, c.evidence, k))
    && (c.evidence != [] ==> c.evidence[|c.evidence| - 1].ledger == c.ledger)
  }

  lemma StartIsOk(scn: Scenario, cell: CellId, config: Config, relationshipId: string, instructions: seq<Directive>)
    requires SpecValid(cell.spec) && Distinct(InstructionIds(instructions))
    ensures CellOk(scn, cell, StartCell(scn, cell, config, relationshipId, instructions))
  {
    hide SimValid, IOk, InitialI, InitialMem, SpecValid;
    InitialMemOk(config, relationshipId);
    InitialIOk(cell.spec, InitialMem(config, relationshipId), instructions);
    InitialSimIsValid(scn.header);
    SameSpec(cell.spec, InitialMem(config, relationshipId), instructions);
  }

  lemma SameSpec(spec: Spec, memory: MemState, instructions: seq<Directive>)
    ensures InitialI(spec, memory, instructions).spec == spec
  {
  }

  /** What a day's plan is made of. */
  lemma PlanMeans(scn: Scenario, o: Oracles, sim: SimState, i: IState)
    requires PlanDay(scn, o, sim, i).Some?
    ensures var p := PlanDay(scn, o, sim, i).value;
            var goals := SortedIds(GoalsOf(scn, p.event.actionIds));
            && p.event.day == sim.nextDay && 1 <= p.event.day <= LAST_DAY
            && Prepare(i, o.score, p.event, goals, o.seedFor("memory-retrieval", p.event)) == Some(p.prepared)
            && ContextSpec(TargetMemory(i, p.prepared.staged), o.score, p.event, goals, o.seedFor("memory-retrieval", p.event)) == Some(p.prepared.context)
  {
    hide SortedIds, MenuOf, OverlayFor, ShownMemories, InputOf, RequestOf, ObserveShock, StageTreatment, ContextSpec;
  }

  lemma ContextIsValid(s: MemState, score: Scoring, e: Event, goalIds: seq<string>, seed: int)
    requires ContextSpec(s, score, e, goalIds, seed).Some?
    ensures RecordValid(ContextSpec(s, score, e, goalIds, seed).value.retrieval)
  {
    hide RecordValid, QueryValid, RankSpec;
  }

  lemma ActedMeans(scn: Scenario, o: Oracles, sim: SimState, ledger: Ledger, plan: DayPlan)
    requires ActDay(scn, o, sim, ledger, plan).Some?
    ensures var r := ActDay(scn, o, sim, ledger, plan).value.record;
            StepRecordValid(r) && SimValid(AdvanceSim(sim, r)) && r.day == plan.event.day && (plan.event.day >= 1 ==> r.index == r.day - 1)
  {
    hide StepRecordValid, SimValid, CommitAction, ApplyConsequence;
  }

  lemma EvidenceGrows(cell: CellId, before: seq<Evidence>, e: Evidence)
    requires forall k | 0 <= k < |before| :: EvidenceLinked(cell, before, k)
    requires e.cell == cell && e.index == |before| && e.previous == LastEvidence(before)
    ensures forall k | 0 <= k < |before + [e]| :: EvidenceLinked(cell, before + [e], k)
  {
    var longer := before + [e];
    forall k | 0 <= k < |longer| ensures EvidenceLinked(cell, longer, k) {
      if k < |before| {
        assert EvidenceLinked(cell, before, k);
        assert longer[..k] == before[..k];
      } else {
        assert longer[..k] == before;
      }
    }
  }

  lemma EvidenceOfMeans(cell: CellId, before: seq<Evidence>, context: DecisionContext, trace: Trace, record: StepRecord, after: IState)
    ensures var e := EvidenceOf(cell, before, context, trace, record, after);
            e.cell == cell && e.index == record.index && e.previous == LastEvidence(before) && e.ledger == trace.ledger
  {
  }

  /** The runtime after a day is as sound as the one before it. */
  lemma DayKeepsRuntimeOk(scn: Scenario, o: Oracles, sim: SimState, i: IState, ledger: Ledger)
    requires IOk(i, sim.nextDay) && RunDay(scn, o, sim, i, ledger).Some?
    ensures IOk(RunDay(scn, o, sim, i, ledger).value.after, sim.nextDay + 1) && RunDay(scn, o, sim, i, ledger).value.after.spec == i.spec
  {
    hide IOk, PlanDay, CommitDay, StageSpec, RecordValid, Prepare, SortedIds, TargetMemory, ActDay;
    var p, a := RunDay(scn, o, sim, i, ledger).value.plan, RunDay(scn, o, sim, i, ledger).value.acted;
    var goals, seed := SortedIds(GoalsOf(scn, p.event.actionIds)), o.seedFor("memory-retrieval", p.event);
    PlanMeans(scn, o, sim, i);
    ContextIsValid(TargetMemory(i, p.prepared.staged), o.score, p.event, goals, seed);
    StagedCommit(TargetMemory(i, p.prepared.staged).config, p.event, a.action, a.record.consequence, p.prepared.context);
    CommitKeepsIOk(i, o.score, p.event, goals, seed, PendingOf(i, p, a), a.record);
    CommitKeepsSpec(i.(shock := p.prepared.shock), p.prepared.staged, PendingOf(i, p, a), a.record);
  }

  lemma DayMeans(scn: Scenario, o: Oracles, sim: SimState, i: IState, ledger: Ledger)
    requires RunDay(scn, o, sim, i, ledger).Some?
    ensures var d := RunDay(scn, o, sim, i, ledger).value;
            && 1 <= sim.nextDay <= LAST_DAY && d.acted.record.day == sim.nextDay && d.acted.record.index == sim.nextDay - 1
            && SimValid(AdvanceSim(sim, d.acted.record)) && PlanDay(scn, o, sim, i) == Some(d.plan) && d.plan.event.day == sim.nextDay
  {
    hide PlanDay, ActDay, CommitDay, SimValid, PendingOf, AdvanceSim, StepRecordValid;
    PlanMeans(scn, o, sim, i);
    ActedMeans(scn, o, sim, ledger, PlanDay(scn, o, sim, i).value);
  }

  /** A cell's day is the simulated day and the evidence accepted for it. */
  lemma CellByStages(scn: Scenario, o: Oracles, cell: CellId, c: CellState)
    ensures var day := RunDay(scn, o, c.sim, c.runtime, c.ledger);
            if day.None? then StepCell(scn, o, cell, c).None?
            else
              var (p, a, after) := (day.value.plan, day.value.acted, day.value.after);
              StepCell(scn, o, cell, c)
              == if !EvidenceAllowed(p.event, TraceOf(p, a), a.record, after) then None
                 else Some(CellState(AdvanceSim(c.sim, a.record), after, a.ledger,
                                     c.evidence + [EvidenceOf(cell, c.evidence, p.prepared.context, TraceOf(p, a), a.record, after)]))
  {
    hide RunDay, EvidenceAllowed, EvidenceOf, AdvanceSim, TraceOf;
  }

  /** A day keeps the cell sound. */
  lemma StepKeepsCellOk(scn: Scenario, o: Oracles, cell: CellId, c: CellState)
    requires CellOk(scn, cell, c) && StepCell(scn, o, cell, c).Some?
    ensures CellOk(scn, cell, StepCell(scn, o, cell, c).value)
    ensures StepCell(scn, o, cell, c).value.sim.nextDay == c.sim.nextDay + 1
  {
    hide SimValid, IOk, PlanDay, RunDay, StepCell, EvidenceAllowed, EvidenceOf, EvidenceLinked, LastEvidence;
    CellByStages(scn, o, cell, c);
    var d := RunDay(scn, o, c.sim, c.runtime, c.ledger).value;
    DayMeans(scn, o, c.sim, c.runtime, c.ledger);
    DayKeepsRuntimeOk(scn, o, c.sim, c.runtime, c.ledger);
    EvidenceOfMeans(cell, c.evidence, d.plan.prepared.context, TraceOf(d.plan, d.acted), d.acted.record, d.after);
    EvidenceGrows(cell, c.evidence, EvidenceOf(cell, c.evidence, d.plan.prepared.context, TraceOf(d.plan, d.acted), d.acted.record, d.after));
  }

  lemma StagedCommit(config: Config, e: Event, action: Action, outcome: Application, context: DecisionContext)
    ensures StageSpec(config, e, action, outcome, context).day == e.day && StageSpec(config, e, action, outcome, context).retrieval == context.retrieval
  {
  }

  lemma CommitKeepsSpec(i: IState, staged: Option<Activation>, pending: PendingCommit, source: StepRecord)
    requires CommitDay(i, staged, pending, source).Some?
    ensures CommitDay(i, staged, pending, source).value.spec == i.spec
    ensures CommitDay(i, staged, pending, source).value.instructions == i.instructions
  {
    hide CommitMem;
  }

  lemma {:induction false} RunKeepsCellOk(scn: Scenario, o: Oracles, cell: CellId, c: CellState, day: nat)
    requires CellOk(scn, cell, c) && RunThrough(scn, o, cell, c, day).Some?
    ensures CellOk(scn, cell, RunThrough(scn, o, cell, c, day).value)
    ensures c.sim.nextDay <= day + 1 ==> RunThrough(scn, o, cell, c, day).value.sim.nextDay == day + 1
    decreases day + 1 - c.sim.nextDay
  {
    hide CellOk, StepCell;
    if c.sim.nextDay <= day {
      StepKeepsCellOk(scn, o, cell, c);
      RunKeepsCellOk(scn, o, cell, StepCell(scn, o, cell, c).value, day);
    }
  }

  /** From day 30 on there is exactly one intervention record, of this cell's treatment, and it is isolated. */
  lemma OneIsolatedRecord(scn: Scenario, o: Oracles, cell: CellId, config: Config, relationshipId: string, instructions: seq<Directive>, day: nat)
    requires SpecValid(cell.spec) && Distinct(InstructionIds(instructions))
    requires RunThrough(scn, o, cell, StartCell(scn, cell, config, relationshipId, instructions), day).Some?
    ensures var records := RunThrough(scn, o, cell, StartCell(scn, cell, config, relationshipId, instructions), day).value.runtime.records;
            if day < ACTIVATION_DAY then records == []
            else |records| == 1 && IsolationOk(records[0]) && records[0].spec == cell.spec && records[0].previous.None?
  {
    hide StartCell, RunThrough, IsolationOk, SimValid, MemOk, SpecValid, EvidenceLinked;
    var start := StartCell(scn, cell, config, relationshipId, instructions);
    StartIsOk(scn, cell, config, relationshipId, instructions);
    StartsOnDayOne(scn, cell, config, relationshipId, instructions);
    RunKeepsCellOk(scn, o, cell, start, day);
    var records := RunThrough(scn, o, cell, start, day).value.runtime.records;
    assert |records| == 1 ==> records[..0] == [];
  }

  lemma StartsOnDayOne(scn: Scenario, cell: CellId, config: Config, relationshipId: string, instructions: seq<Directive>)
    ensures StartCell(scn, cell, config, relationshipId, instructions).sim.nextDay == 1
  {
  }

  // ----- The evidence checks never refuse a reachable day -----

  lemma {:induction false} ShownIdsMatch(s: Store, ids: seq<string>)
    requires ShownMemories(s, ids).Some?
    ensures ShownIds(ShownMemories(s, ids).value) == ids
  {
    hide Latest, AccessCount, KeepFirst;
    if ids != [] {
      ShownIdsMatch(s, ids[1..]);
      assert ids == [ids[0]] + ids[1..];
    }
  }

  lemma PlanShows(scn: Scenario, o: Oracles, sim: SimState, i: IState)
    requires PlanDay(scn, o, sim, i).Some?
    ensures var p := PlanDay(scn, o, sim, i).value;
            && ShownIds(p.selected) == p.request.retrievedIds == p.prepared.context.retrievedIds
            && Distinct(p.prepared.context.retrievedIds)
  {
    hide SortedIds, MenuOf, OverlayFor, ShownMemories, InputOf, Prepare, RecordValid, TargetMemory, EventFor;
    PlanMeans(scn, o, sim, i);
    var p := PlanDay(scn, o, sim, i).value;
    ShownIdsMatch(TargetMemory(i, p.prepared.staged).store, p.prepared.context.retrievedIds);
    ContextIsDistinct(TargetMemory(i, p.prepared.staged), o.score, p.event, SortedIds(GoalsOf(scn, p.event.actionIds)), o.seedFor("memory-retrieval", p.event));
  }

  lemma ContextIsDistinct(s: MemState, score: Scoring, e: Event, goalIds: seq<string>, seed: int)
    requires ContextSpec(s, score, e, goalIds, seed).Some?
    ensures Distinct(ContextSpec(s, score, e, goalIds, seed).value.retrievedIds)
  {
    hide QueryValid, RankSpec, Current;
  }

  lemma ActedRecord(scn: Scenario, o: Oracles, sim: SimState, ledger: Ledger, plan: DayPlan)
    requires ActDay(scn, o, sim, ledger, plan).Some?
    ensures var r := ActDay(scn, o, sim, ledger, plan).value.record;
            r.event == plan.event && r.day == plan.event.day && r.total == scn.dailyTotal && r.selection.retrievedIds == plan.request.retrievedIds
  {
    hide StepRecordValid, SimValid, CommitAction, ApplyConsequence;
  }

  /** Any treatment's targets are partner memories from before the shock. */
  lemma TreatmentTargets(spec: Spec, m: MemState, active: seq<string>, shock: Option<ShockValidation>)
    requires SpecValid(spec) && MemOk(m) && Activate(spec, m, active, shock, [], ACTIVATION_DAY).Some?
    ensures TargetsArePreShock(m.store, Activate(spec, m, active, shock, [], ACTIVATION_DAY).value.record)
  {
    hide StoreOk, LedgerOk, RecordValid, TakeSnapshot, IsolationOk, PartnerTargets, ReframeAll, SortedIds, Find, Get, Among;
    PartnerTargetsExact(m.store, SHOCK_DAY - 1);
  }

  lemma TargetsStayPreShock(before: Store, after: Store, r: InterventionRecord)
    requires TargetsArePreShock(before, r) && before.episodes <= after.episodes && StoreOk(after)
    ensures TargetsArePreShock(after, r)
  {
    hide MemoryValid, ReframeFits;
    if r.spec.condition == MemoryBlocking || r.spec.condition == MemoryReframing {
      forall id | id in r.targets
        ensures Find(after.episodes, id).Some? && Find(after.episodes, id).value.day < SHOCK_DAY && Find(after.episodes, id).value.partnerRelated
      {
        var m := Find(before.episodes, id).value;
        var k :| 0 <= k < |before.episodes| && before.episodes[k] == m;
        assert after.episodes[k] == m;
        FindInDistinct(after.episodes, k);
      }
    }
  }

  /** On day 30 the record's targets are found, before the shock, in the memory after the day. */
  lemma Day30Targets(i: IState, p: Prepared, pending: PendingCommit, source: StepRecord)
    requires IOk(i, ACTIVATION_DAY) && StageTreatment(i, p.shock, ACTIVATION_DAY) == Some(p.staged) && p.shock.Some?
    requires RecordValid(pending.retrieval) && pending.day <= LAST_DAY
    requires CommitDay(i.(shock := p.shock), p.staged, pending, source).Some?
    ensures var after := CommitDay(i.(shock := p.shock), p.staged, pending, source).value;
            after.records != [] && TargetsArePreShock(after.memory.store, after.records[|after.records| - 1])
  {
    hide IsolationOk, Activate, RestoreMem, RecordValid, TargetsArePreShock, SpecValid, CommitMem, ICheckpointValid;
    StagingIsSafe(i, p.shock, ACTIVATION_DAY);
    TreatmentTargets(i.spec, i.memory, i.active, p.shock);
    CommitKeepsMemOk(TargetMemory(i, p.staged), pending, source);
    var after := CommitDay(i.(shock := p.shock), p.staged, pending, source).value;
    TargetsStayPreShock(i.memory.store, after.memory.store, p.staged.value.record);
  }

  lemma ShockObserved(i: IState, e: Event)
    requires e.day == SHOCK_DAY && ObserveShock(i, e).Some?
    ensures ObserveShock(i, e).value.Some? && ObserveShock(i, e).value.value.event == e && HeldOutSource() in e.sourceIds
  {
    hide SortedIds, SortBy, HeldOutSource, HeldOutGroup, HeldOutPrefix;
  }

  /** What a prepared day leaves in the runtime's shock field and on its clone. */
  lemma PreparedMeans(i: IState, score: Scoring, e: Event, goalIds: seq<string>, seed: int)
    requires Prepare(i, score, e, goalIds, seed).Some?
    ensures var p := Prepare(i, score, e, goalIds, seed).value;
            ObserveShock(i, e) == Some(p.shock) && StageTreatment(i, p.shock, e.day) == Some(p.staged)
  {
    hide ObserveShock, StageTreatment, ContextSpec;
  }

  lemma CommitKeepsShock(i: IState, staged: Option<Activation>, pending: PendingCommit, source: StepRecord)
    requires CommitDay(i, staged, pending, source).Some?
    ensures CommitDay(i, staged, pending, source).value.shock == i.shock
  {
    hide CommitMem;
  }

  lemma SoundDay30(i: IState)
    requires IOk(i, ACTIVATION_DAY)
    ensures i.shock.Some?
  {
    hide MemOk, SpecValid;
  }

  lemma SoundAfter(i: IState, nextDay: nat)
    requires IOk(i, nextDay)
    ensures CheckpointOk(i.memory) && (nextDay > ACTIVATION_DAY <==> i.records != [])
  {
    hide MemOk, SpecValid, ChainedRecord, CheckpointOk, RestoreMem;
    MemRoundTrip(i.memory);
  }

  /** With a daily budget of ten, no check on the evidence refuses a day that the simulation completed. */
  lemma EvidenceNeverRefused(scn: Scenario, o: Oracles, sim: SimState, i: IState, ledger: Ledger)
    requires IOk(i, sim.nextDay) && RunDay(scn, o, sim, i, ledger).Some? && scn.dailyTotal == 10
    ensures var d := RunDay(scn, o, sim, i, ledger).value;
            EvidenceAllowed(d.plan.event, TraceOf(d.plan, d.acted), d.acted.record, d.after)
  {
    hide IOk, PlanDay, ActDay, CommitDay, StageSpec, RecordValid, Prepare, SortedIds, TargetMemory, CheckpointOk, TargetsArePreShock, HeldOutSource,
      ObserveShock, StageTreatment, Distinct, AdvanceSim, SimValid;
    var d := RunDay(scn, o, sim, i, ledger).value;
    var (p, a) := (d.plan, d.acted);
    var goals, seed := SortedIds(GoalsOf(scn, p.event.actionIds)), o.seedFor("memory-retrieval", p.event);
    DayMeans(scn, o, sim, i, ledger);
    DayKeepsRuntimeOk(scn, o, sim, i, ledger);
    SoundAfter(d.after, sim.nextDay + 1);
    PlanMeans(scn, o, sim, i);
    PlanShows(scn, o, sim, i);
    ActedRecord(scn, o, sim, ledger, p);
    PreparedMeans(i, o.score, p.event, goals, seed);
    CommitKeepsShock(i.(shock := p.prepared.shock), p.prepared.staged, PendingOf(i, p, a), a.record);
    if p.event.day == SHOCK_DAY {
      ShockObserved(i, p.event);
    }
    if p.event.day == ACTIVATION_DAY {
      SoundDay30(i);
      NoShockOnOtherDays(i, p.event);
      ContextIsValid(TargetMemory(i, p.prepared.staged), o.score, p.event, goals, seed);
      StagedCommit(TargetMemory(i, p.prepared.staged).config, p.event, a.action, a.record.consequence, p.prepared.context);
      Day30Targets(i, p.prepared, PendingOf(i, p, a), a.record);
    }
  }

  lemma NoShockOnOtherDays(i: IState, e: Event)
    ensures e.day != SHOCK_DAY ==> ObserveShock(i, e) == Some(i.shock)
  {
  }

  // ----- The composite checkpoint -----

  /** The pointer binds every ledger by its digest. */
  datatype Pointer = Pointer(
    cell: CellId,
    sequence: nat,
    nextDay: nat,
    simulation: SimState,
    memory: MemState,
    intervention: ICheckpoint,
    interventions: seq<InterventionRecord>,
    ledger: Ledger,
    count: nat,
    head: Evidence)

  datatype Bundle = Bundle(pointer: Pointer, simulation: SimState, intervention: ICheckpoint, evidence: seq<Evidence>)

  predicate PointerValid(p: Pointer) {
    p.count == p.nextDay - 1 && p.sequence == p.count && 2 <= p.nextDay <= COMPLETED_DAY
  }

  function Capture(cell: CellId, c: CellState): Option<Bundle> {
    var count := |c.evidence|;
    if count == 0 || count != c.sim.nextDay - 1 || !SimValid(c.sim) then None
    else
      var intervention := CaptureI(c.runtime, c.sim);
      if intervention.None? then None
      else
        var pointer := Pointer(cell, count, c.sim.nextDay, c.sim, c.runtime.memory, intervention.value, c.runtime.records, c.ledger, count,
                               c.evidence[count - 1]);
        if PointerValid(pointer) then Some(Bundle(pointer, c.sim, intervention.value, c.evidence)) else None
  }

  /** The components the pointer binds are the ones delivered. */
  predicate ComponentsMatch(b: Bundle) {
    var p := b.pointer;
    && p.simulation == b.simulation && p.memory == b.intervention.state.memory && p.intervention == b.intervention
    && p.interventions == b.intervention.state.records
    && p.count == |b.evidence| && b.evidence != [] && p.head == b.evidence[|b.evidence| - 1]
    && p.ledger == b.evidence[|b.evidence| - 1].ledger && p.nextDay == b.simulation.nextDay
  }

  function Restore(scn: Scenario, cell: CellId, b: Bundle): Option<CellState> {
    if b.pointer.cell != cell || !PointerValid(b.pointer) || !SimValid(b.simulation)
       || !(forall k | 0 <= k < |b.evidence| :: EvidenceLinked(cell, b.evidence, k))
       || !ComponentsMatch(b) || b.simulation.header != scn.header then None
    else
      var runtime := RestoreI(b.intervention, b.simulation);
      if runtime.None? then None else Some(CellState(b.simulation, runtime.value, b.pointer.ledger, b.evidence))
  }

  /** Every checkpoint of a reachable cell is captured, accepted, and restores to the same cell. */
  lemma CompositeRoundTrip(scn: Scenario, cell: CellId, c: CellState)
    requires CellOk(scn, cell, c) && c.evidence != []
    ensures Capture(cell, c).Some? && Restore(scn, cell, Capture(cell, c).value) == Some(c)
  {
    hide IOk, CaptureI, RestoreI, EvidenceLinked;
    RuntimeRoundTrip(c.runtime, c.sim);
    assert c.sim.nextDay <= COMPLETED_DAY;
  }

  lemma {:induction false} RunInTwoParts(scn: Scenario, o: Oracles, cell: CellId, c: CellState, first: nat, last: nat)
    requires first <= last
    ensures RunThrough(scn, o, cell, c, last)
            == var paused := RunThrough(scn, o, cell, c, first); if paused.None? then None else RunThrough(scn, o, cell, paused.value, last)
    decreases first + 1 - c.sim.nextDay
  {
    hide StepCell;
    if c.sim.nextDay <= first {
      var next := StepCell(scn, o, cell, c);
      if next.Some? && next.value.sim.nextDay > c.sim.nextDay {
        RunInTwoParts(scn, o, cell, next.value, first, last);
      }
    }
  }

  /** Pausing after any day, capturing, restoring and finishing is the uninterrupted run. */
  lemma ResumeEqualsUninterrupted(scn: Scenario, o: Oracles, cell: CellId, start: CellState, pause: nat, last: nat)
    requires CellOk(scn, cell, start) && start.sim.nextDay <= pause <= last
    requires RunThrough(scn, o, cell, start, pause).Some?
    ensures var paused := RunThrough(scn, o, cell, start, pause).value;
            && Capture(cell, paused).Some?
            && var resumed := Restore(scn, cell, Capture(cell, paused).value);
               resumed.Some? && RunThrough(scn, o, cell, resumed.value, last) == RunThrough(scn, o, cell, start, last)
  {
    hide CellOk, RunThrough, Capture, Restore;
    var paused := RunThrough(scn, o, cell, start, pause).value;
    RunKeepsCellOk(scn, o, cell, start, pause);
    EvidenceByDay(scn, cell, paused);
    EvidenceByDay(scn, cell, start);
    CompositeRoundTrip(scn, cell, paused);
    RunInTwoParts(scn, o, cell, start, pause, last);
  }

  lemma EvidenceByDay(scn: Scenario, cell: CellId, c: CellState)
    requires CellOk(scn, cell, c)
    ensures |c.evidence| == c.sim.nextDay - 1 && 1 <= c.sim.nextDay <= COMPLETED_DAY
  {
    hide IOk, EvidenceLinked;
  }
}
