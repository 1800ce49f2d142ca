/** The simulated world: events, actions, model inputs, and the append-only step records.

    A digest is modelled as the value it is the digest of, so digests are equal exactly when values are. */
module World {
  import opened Wrappers
  import opened Ordering

  const LAST_DAY: nat := 40
  const COMPLETED_DAY: nat := 41

  datatype Phase = Baseline | Formation | RealityShock | Adaptation | ControlPhase

  function PhaseForDay(day: nat): Phase {
    if day <= 5 then Baseline else if day <= 25 then Formation else if day == 26 then RealityShock else Adaptation
  }

  datatype Fact = Fact(factId: string, proposition: string, truth: bool)

  datatype EventReading = EventReading(interpretationId: string, proposition: string, factIds: seq<string>, ledgerSupported: bool)

  datatype Direction = Supports | Contradicts

  datatype RelationshipEvidence = RelationshipEvidence(evidenceId: string, factIds: seq<string>, direction: Direction)

  datatype MemoryCandidate =
    MemoryCandidate(memoryId: string, sourceFactIds: seq<string>, summary: string, partnerRelated: bool, retrievalEligible: bool)

  datatype Event = Event(
    eventId: string,
    group: string,
    day: nat,
    phase: Phase,
    formation: string,
    sourceIds: seq<string>,
    participants: seq<string>,
    facts: seq<Fact>,
    readings: seq<EventReading>,
    evidence: seq<RelationshipEvidence>,
    candidates: seq<MemoryCandidate>,
    actionIds: seq<string>,
    consequenceIds: seq<string>)

  function FactIds(facts: seq<Fact>): (r: seq<string>)
    ensures |r| == |facts| && forall i | 0 <= i < |r| :: r[i] == facts[i].factId
  {
    if facts == [] then [] else [facts[0].factId] + FactIds(facts[1..])
  }

  predicate IsSubset(a: seq<string>, b: seq<string>) {
    forall x | x in a :: x in b
  }

  // ----- Actions -----

  datatype Action = Action(actionId: string, description: string, cost: int, partnerDirected: bool, goalIds: seq<string>, consequenceId: string)

  datatype Consequence = Consequence(consequenceId: string, delta: int, progress: map<string, int>)

  datatype MenuItem = MenuItem(actionId: string, description: string, cost: int)

  /** What the model may be told of the relationship belief; `None` is told as "unknown". */
  datatype BeliefView = BeliefView(
    active: Option<bool>,
    romantic: Option<bool>,
    reciprocal: Option<bool>,
    reliability: real,
    expected: real,
    confidence: real)

  /** The identifier a request is the digest of. */
  datatype RequestId = RequestId(day: nat, group: string)

  datatype Request = Request(
    requestId: RequestId,
    eventId: string,
    day: nat,
    facts: seq<string>,
    points: int,
    menu: seq<MenuItem>,
    retrievedIds: seq<string>,
    beliefs: Option<BeliefView>)

  // ----- What the model is given -----

  datatype Directive = Directive(instructionId: string, text: string)

  datatype SelectedMemory = SelectedMemory(
    memoryId: string,
    summary: string,
    facts: seq<string>,
    interpretationId: Option<string>,
    interpretation: Option<string>,
    revision: Option<nat>,
    sourceIds: seq<string>)

  /** The matched arms share this base: it leaves the intervention out. */
  datatype BaseRun = BaseRun(formation: string, seed: int, scenarioId: string, modelConfigId: string)

  datatype ModelInput = ModelInput(
    base: BaseRun,
    requestId: RequestId,
    eventId: string,
    day: nat,
    facts: seq<string>,
    goals: seq<string>,
    points: int,
    menu: seq<MenuItem>,
    memories: seq<SelectedMemory>,
    beliefs: Option<BeliefView>,
    beliefEvidence: seq<string>,
    directives: seq<Directive>)

  /** The identifier a decision is the digest of. */
  datatype DecisionId = DecisionId(actionId: string, input: ModelInput, seed: int)

  datatype Selection = Selection(decisionId: DecisionId, actionId: string, spent: int, retrievedIds: seq<string>)

  datatype Commitment = Commitment(eventId: string, decisionId: DecisionId, actionId: string, consequenceId: string, cost: int)

  datatype Application = Application(commitment: Commitment, consequenceId: string, delta: int, progress: map<string, int>)

  // ----- The simulation's ledger -----

  datatype Header = Header(
    simulationId: string,
    version: string,
    formation: string,
    seed: int,
    configId: string,
    datasetId: string,
    scenarioId: string,
    modelId: string,
    modelRevision: string)

  datatype StepRecord = StepRecord(
    index: nat,
    day: nat,
    header: Header,
    event: Event,
    request: Request,
    selectionSeed: int,
    languageSeed: int,
    foregone: seq<string>,
    partnerDirected: bool,
    previous: Option<StepRecord>,
    eligible: bool,
    selection: Selection,
    response: string,
    action: Commitment,
    total: int,
    remaining: int,
    consequence: Application)

  type Progress = map<string, int>

  datatype SimState = SimState(header: Header, nextDay: nat, records: seq<StepRecord>, progress: Progress, completed: bool)

  function ProgressOf(p: Progress, goal: string): int {
    if goal in p then p[goal] else 0
  }

  /** Progress with a day's deltas added, goal by goal. */
  function AddProgress(p: Progress, deltas: Progress): Progress {
    map goal | goal in p.Keys + deltas.Keys :: ProgressOf(p, goal) + ProgressOf(deltas, goal)
  }

  function LastRecord(records: seq<StepRecord>): Option<StepRecord> {
    if records == [] then None else Some(records[|records| - 1])
  }

  /** The goal progress the consequences of the records add up to. */
  function Accumulated(records: seq<StepRecord>): Progress {
    if records == [] then map[]
    else AddProgress(Accumulated(records[..|records| - 1]), records[|records| - 1].consequence.progress)
  }

  /** The checks a step record passes when it is built or read back. */
  predicate StepRecordValid(r: StepRecord) {
    && 1 <= r.day <= LAST_DAY && r.index == r.day - 1
    && r.eligible == (r.day >= 30)
    && Distinct(r.event.actionIds)
    && r.event.eventId == r.action.eventId
    && r.selection.decisionId == r.action.decisionId
    && r.remaining == r.total - r.action.cost && r.action.cost > 0
    && r.consequence.commitment == r.action
  }

  predicate RecordFits(s: SimState, i: nat)
    requires i < |s.records|
  {
    var r := s.records[i];
    StepRecordValid(r) && r.day == i + 1 && r.header == s.header && r.previous == LastRecord(s.records[..i])
  }

  /** The checks a simulation state passes when it is read back: contiguous days, one chain, exact progress. */
  predicate SimValid(s: SimState) {
    && 1 <= s.nextDay <= COMPLETED_DAY
    && |s.records| == s.nextDay - 1
    && s.completed == (s.nextDay == COMPLETED_DAY)
    && (forall i | 0 <= i < |s.records| :: RecordFits(s, i))
    && s.progress == Accumulated(s.records)
  }

  function InitialSim(h: Header): SimState {
    SimState(h, 1, [], map[], false)
  }

  function AdvanceSim(s: SimState, r: StepRecord): SimState {
    SimState(s.header, s.nextDay + 1, s.records + [r], AddProgress(s.progress, r.consequence.progress), s.nextDay + 1 == COMPLETED_DAY)
  }

  lemma InitialSimIsValid(h: Header)
    ensures SimValid(InitialSim(h))
  {
  }

  /** A valid record chained to the last one keeps the state valid. */
  lemma AdvanceKeepsSimValid(s: SimState, r: StepRecord)
    requires SimValid(s) && s.nextDay <= LAST_DAY
    requires StepRecordValid(r) && r.day == s.nextDay && r.header == s.header && r.previous == LastRecord(s.records)
    ensures SimValid(AdvanceSim(s, r))
  {
    hide StepRecordValid, AddProgress;
    var next := AdvanceSim(s, r);
    forall i | 0 <= i < |next.records| ensures RecordFits(next, i) {
      if i < |s.records| {
        assert RecordFits(s, i);
        assert next.records[..i] == s.records[..i];
      } else {
        assert next.records[..i] == s.records;
      }
    }
    assert next.records[..|next.records| - 1] == s.records;
  }
}
