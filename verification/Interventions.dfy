/** The held-out shock of day 26 and the one treatment of day 30, staged on a clone of the memory. */
module Interventions {
  import opened Wrappers
  import opened Ordering
  import opened World
  import opened Episodes
  import opened Beliefs
  import opened Retrieval
  import opened MemoryRuntime

  const SHOCK_DAY: nat := 26
  const ACTIVATION_DAY: nat := 30

  datatype Condition = NoTreatment | InstructionRemoval | MemoryBlocking | MemoryReframing

  datatype Spec = Spec(
    interventionId: string,
    condition: Condition,
    targetInstructions: seq<string>,
    blockThrough: Option<nat>,
    reframeThrough: Option<nat>,
    policyVersion: Option<string>,
    proposition: Option<string>)

  /** A treatment declares the layer it writes and no other. */
  predicate SpecValid(s: Spec) {
    && Distinct(s.targetInstructions)
    && (s.targetInstructions != [] <==> s.condition == InstructionRemoval)
    && (s.blockThrough.Some? <==> s.condition == MemoryBlocking) && (s.blockThrough.Some? ==> s.blockThrough.value == SHOCK_DAY - 1)
    && (s.reframeThrough.Some? <==> s.condition == MemoryReframing) && (s.reframeThrough.Some? ==> s.reframeThrough.value == SHOCK_DAY - 1)
    && (s.policyVersion.Some? <==> s.condition == MemoryReframing)
    && (s.proposition.Some? <==> s.condition == MemoryReframing)
  }

  // ----- The shock -----

  datatype ShockValidation = ShockValidation(event: Event, authoritative: seq<string>, contradictions: seq<string>)

  function HeldOutGroup(): string {
    "heldout-shock-day-26"
  }

  function HeldOutPrefix(): string {
    "heldout-shock-26-"
  }

  function HeldOutSource(): string {
    "template-reality-shock"
  }

  function TrueFactIds(facts: seq<Fact>): seq<string> {
    if facts == [] then []
    else if facts[0].truth then [facts[0].factId] + TrueFactIds(facts[1..])
    else TrueFactIds(facts[1..])
  }

  function Contradictions(evidence: seq<RelationshipEvidence>, authoritative: seq<string>): seq<string> {
    if evidence == [] then []
    else
      var rest := Contradictions(evidence[1..], authoritative);
      if evidence[0].direction == Contradicts && IsSubset(evidence[0].factIds, authoritative) then [evidence[0].evidenceId] + rest else rest
  }

  /** The day's event is accepted as the held-out shock, or refused. */
  function ValidateShock(e: Event): Option<ShockValidation> {
    if e.day != SHOCK_DAY || e.phase != RealityShock || e.group != HeldOutGroup() || HeldOutSource() !in e.sourceIds
       || !(HeldOutPrefix() <= e.eventId) then None
    else
      var authoritative := SortedIds(TrueFactIds(e.facts));
      var contradictions := SortBy(AtMost, Contradictions(e.evidence, authoritative));
      if authoritative == [] || contradictions == [] then None else Some(ShockValidation(e, authoritative, contradictions))
  }

  // ----- Records -----

  datatype Layer = Instructions | RetrievalPolicy | Interpretations

  datatype NoOpReason = AssignedNoTreatment | TargetNotActive | NoEligibleMemory

  datatype LayerSnapshot = LayerSnapshot(
    active: seq<string>,
    blockedIds: seq<string>,
    blockedTags: seq<string>,
    storage: seq<Memory>,
    interpretations: seq<Option<Interpretation>>,
    beliefs: seq<Belief>)

  function CurrentReadings(s: Store, episodes: seq<Memory>): seq<Option<Interpretation>> {
    if episodes == [] then [] else [View(s, episodes[0]).interpretation] + CurrentReadings(s, episodes[1..])
  }

  /** Facts, sources and identifiers are parts of the stored episodes, so one digest of the storage stands for all four. */
  function TakeSnapshot(m: MemState, active: seq<string>): LayerSnapshot {
    LayerSnapshot(active, m.blockedIds, m.blockedTags, m.store.episodes, CurrentReadings(m.store, m.store.episodes), m.versions)
  }

  datatype InterventionRecord = InterventionRecord(
    spec: Spec,
    day: nat,
    shock: ShockValidation,
    targets: seq<string>,
    changed: seq<Layer>,
    noOp: Option<NoOpReason>,
    before: LayerSnapshot,
    after: LayerSnapshot,
    reframes: seq<ReframeEvent>,
    previous: Option<InterventionRecord>)

  function WritableLayer(c: Condition): seq<Layer> {
    match c
    case NoTreatment => []
    case InstructionRemoval => [Instructions]
    case MemoryBlocking => [RetrievalPolicy]
    case MemoryReframing => [Interpretations]
  }

  /** The isolation checks a record passes when it is built or read back. */
  predicate IsolationOk(r: InterventionRecord) {
    var c := r.spec.condition;
    && r.day == ACTIVATION_DAY
    && (if r.noOp.None? then r.changed == WritableLayer(c) else r.changed == [] && r.before == r.after)
    && r.before.storage == r.after.storage && r.before.beliefs == r.after.beliefs
    && (c != InstructionRemoval ==> r.before.active == r.after.active)
    && (c != MemoryBlocking ==> r.before.blockedIds == r.after.blockedIds && r.before.blockedTags == r.after.blockedTags)
    && (c != MemoryReframing ==> r.before.interpretations == r.after.interpretations && r.reframes == [])
    && (c == NoTreatment ==> r.before == r.after)
  }

  // ----- Activation -----

  function Among(ids: seq<string>, chosen: seq<string>, wanted: bool): (r: seq<string>)
    ensures forall x :: x in r <==> x in ids && ((x in chosen) == wanted)
  {
    if ids == [] then []
    else
      assert ids == [ids[0]] + ids[1..];
      if (ids[0] in chosen) == wanted then [ids[0]] + Among(ids[1..], chosen, wanted) else Among(ids[1..], chosen, wanted)
  }

  function PartnerIds(episodes: seq<Memory>, through: nat): seq<string> {
    if episodes == [] then []
    else
      var rest := PartnerIds(episodes[1..], through);
      if episodes[0].partnerRelated && episodes[0].day <= through then [episodes[0].memoryId] + rest else rest
  }

  function PartnerTargets(s: Store, through: nat): seq<string> {
    SortBy(AtMost, PartnerIds(s.episodes, through))
  }

  function WithReading(s: Store, ids: seq<string>): (r: seq<string>)
    ensures forall x :: x in r <==> x in ids && Get(s, x).Some? && Get(s, x).value.interpretation.Some?
  {
    if ids == [] then []
    else
      assert ids == [ids[0]] + ids[1..];
      var current := Get(s, ids[0]);
      if current.Some? && current.value.interpretation.Some? then [ids[0]] + WithReading(s, ids[1..]) else WithReading(s, ids[1..])
  }

  function Decimal(n: nat): string {
    if n < 10 then [('0' as int + n) as char] else Decimal(n / 10) + [('0' as int + n % 10) as char]
  }

  function Revised(prior: Interpretation, proposition: string): Interpretation {
    Interpretation(prior.interpretationId + "-reframe-" + Decimal(prior.revision + 1), proposition, prior.factIds, false, prior.revision + 1)
  }

  /** Reframes the targets in order; `None` is a target the store refuses. */
  function ReframeAll(s: Store, ids: seq<string>, proposition: string, interventionId: string, policy: string): Option<(Store, seq<ReframeEvent>)>
    decreases |ids|
  {
    if ids == [] then Some((s, []))
    else
      var current := Get(s, ids[0]);
      if current.None? || current.value.interpretation.None? then None
      else
        var (result, next) := ReframeSpec(s, ids[0], Revised(current.value.interpretation.value, proposition), interventionId, policy);
        if !result.Reframed? then None
        else
          var rest := ReframeAll(next, ids[1..], proposition, interventionId, policy);
          if rest.None? then None else Some((rest.value.0, [result.event] + rest.value.1))
  }

  /** What a treatment did: the memory and instructions after it, its targets, and why it did nothing if so. */
  datatype Effect = Effect(memory: MemState, active: seq<string>, targets: seq<string>, reframes: seq<ReframeEvent>, noOp: Option<NoOpReason>)

  function ApplyTreatment(spec: Spec, m: MemState, active: seq<string>): Option<Effect> {
    match spec.condition
    case NoTreatment => Some(Effect(m, active, [], [], Some(AssignedNoTreatment)))
    case InstructionRemoval =>
      var targets := Among(spec.targetInstructions, active, true);
      if targets == [] then Some(Effect(m, active, [], [], Some(TargetNotActive)))
      else Some(Effect(m, Among(active, targets, false), targets, [], None))
    case MemoryBlocking =>
      var targets := PartnerTargets(m.store, spec.blockThrough.GetOr(Some(0)).value);
      if targets == [] then Some(Effect(m, active, [], [], Some(NoEligibleMemory)))
      else Some(Effect(m.(blockedIds := SortedIds(targets)), active, targets, [], None))
    case MemoryReframing =>
      var targets := WithReading(m.store, PartnerTargets(m.store, spec.reframeThrough.GetOr(Some(0)).value));
      if targets == [] then Some(Effect(m, active, [], [], Some(NoEligibleMemory)))
      else
        var r := ReframeAll(m.store, targets, spec.proposition.GetOr(Some("")).value, spec.interventionId, spec.policyVersion.GetOr(Some("")).value);
        if r.None? then None else Some(Effect(m.(store := r.value.0), active, targets, r.value.1, None))
  }

  datatype Activation = Activation(memory: MemState, active: seq<string>, record: InterventionRecord)

  function FindApplied(records: seq<InterventionRecord>, interventionId: string): Option<InterventionRecord> {
    if records == [] then None
    else if records[0].spec.interventionId == interventionId then Some(records[0])
    else FindApplied(records[1..], interventionId)
  }

  function LastApplied(records: seq<InterventionRecord>): Option<InterventionRecord> {
    if records == [] then None else Some(records[|records| - 1])
  }

  /** `None` is an activation that raises. An intervention that is already recorded does nothing again. */
  function Activate(spec: Spec, m: MemState, active: seq<string>, shock: Option<ShockValidation>, records: seq<InterventionRecord>, day: nat): Option<Activation> {
    var existing := FindApplied(records, spec.interventionId);
    if existing.Some? then (if day != ACTIVATION_DAY then None else Some(Activation(m, active, existing.value)))
    else if day != ACTIVATION_DAY || shock.None? then None
    else
      var effect := ApplyTreatment(spec, m, active);
      if effect.None? then None
      else
        var e := effect.value;
        var record := InterventionRecord(spec, day, shock.value, e.targets, if e.noOp.Some? then [] else WritableLayer(spec.condition), e.noOp,
                                         TakeSnapshot(m, active), TakeSnapshot(e.memory, e.active), e.reframes, LastApplied(records));
        if IsolationOk(record) then Some(Activation(e.memory, e.active, record)) else None
  }

  // ----- Every activation is isolated -----

  lemma {:induction false} GetWithOtherReframed(s: Store, event: ReframeEvent, id: string)
    requires event.memoryId != id
    ensures Get(s.(reframes := s.reframes + [event]), id) == Get(s, id)
  {
    var raw := Find(s.episodes, id);
    if raw.Some? {
      LatestUnchanged(raw.value.interpretation, s.reframes, event, id);
    }
  }

  lemma ReadingRestsOnFacts(s: Store, id: string)
    requires StoreOk(s) && Get(s, id).Some? && Get(s, id).value.interpretation.Some?
    ensures IsSubset(Get(s, id).value.interpretation.value.factIds, FactIds(Get(s, id).value.facts))
  {
    hide ReframeFits;
    var raw := Find(s.episodes, id).value;
    assert s.reframes[..|s.reframes|] == s.reframes;
    LatestRestsOnFacts(s, raw, |s.reframes|);
  }

  lemma StoredReadingRestsOnFacts(s: Store, raw: Memory)
    requires StoreOk(s) && Find(s.episodes, raw.memoryId) == Some(raw)
    ensures raw.interpretation.Some? ==> IsSubset(raw.interpretation.value.factIds, FactIds(raw.facts))
  {
    hide ReframeFits;
    assert MemoryValid(raw);
  }

  lemma {:induction false} LatestRestsOnFacts(s: Store, raw: Memory, n: nat)
    requires StoreOk(s) && n <= |s.reframes| && Find(s.episodes, raw.memoryId) == Some(raw)
    ensures var latest := Latest(raw.interpretation, s.reframes[..n], raw.memoryId);
            latest.Some? ==> IsSubset(latest.value.factIds, FactIds(raw.facts))
  {
    hide MemoryValid;
    if n == 0 {
      StoredReadingRestsOnFacts(s, raw);
    } else {
      assert s.reframes[..n][..n - 1] == s.reframes[..n - 1];
      LatestRestsOnFacts(s, raw, n - 1);
      assert ReframeFits(s, n - 1);
    }
  }

  /** Reframing distinct episodes that have a reading always succeeds; each target gets its reading revised
      once on the same facts, and nothing else changes. */
  lemma {:induction false} ReframeAllEffect(s: Store, ids: seq<string>, proposition: string, interventionId: string, policy: string)
    requires StoreOk(s) && Distinct(ids)
    requires forall id | id in ids :: Get(s, id).Some? && Get(s, id).value.interpretation.Some?
    ensures var r := ReframeAll(s, ids, proposition, interventionId, policy);
            && r.Some? && StoreOk(r.value.0)
            && r.value.0.episodes == s.episodes && r.value.0.accesses == s.accesses && s.reframes <= r.value.0.reframes
            && |r.value.1| == |ids|
            && (forall id | id in ids :: Get(r.value.0, id).Some?
                  && Get(r.value.0, id).value.interpretation == Some(Revised(Get(s, id).value.interpretation.value, proposition)))
            && (forall id | id !in ids :: Get(r.value.0, id) == Get(s, id))
    decreases |ids|
  {
    hide StoreOk, Revised, Get;
    if ids != [] {
      var id := ids[0];
      ReframeOneEffect(s, id, proposition, interventionId, policy);
      var prior := Get(s, id).value.interpretation.value;
      var (result, next) := ReframeSpec(s, id, Revised(prior, proposition), interventionId, policy);
      assert ids == [id] + ids[1..] && id !in ids[1..];
      ReframeAllEffect(next, ids[1..], proposition, interventionId, policy);
    }
  }

  lemma ReframeOneEffect(s: Store, id: string, proposition: string, interventionId: string, policy: string)
    requires StoreOk(s) && Get(s, id).Some? && Get(s, id).value.interpretation.Some?
    ensures var prior := Get(s, id).value.interpretation.value;
            var (result, next) := ReframeSpec(s, id, Revised(prior, proposition), interventionId, policy);
            && result.Reframed? && StoreOk(next) && next.episodes == s.episodes && next.accesses == s.accesses
            && next.reframes == s.reframes + [result.event]
            && Get(next, id).Some? && Get(next, id).value.interpretation == Some(Revised(prior, proposition))
            && forall other | other != id :: Get(next, other) == Get(s, other)
  {
    hide StoreOk, Decimal;
    var prior := Get(s, id).value.interpretation.value;
    ReadingRestsOnFacts(s, id);
    var (result, next) := ReframeSpec(s, id, Revised(prior, proposition), interventionId, policy);
    ReframeKeepsStoreOk(s, id, Revised(prior, proposition), interventionId, policy);
    LatestUnchanged(Find(s.episodes, id).value.interpretation, s.reframes, result.event, id);
    forall other | other != id ensures Get(next, other) == Get(s, other) {
      GetWithOtherReframed(s, result.event, other);
    }
  }

  lemma {:induction false} PartnerIdsListed(episodes: seq<Memory>, through: nat)
    requires DistinctMemoryIds(episodes)
    ensures Distinct(PartnerIds(episodes, through))
    ensures forall id :: id in PartnerIds(episodes, through) <==>
              Find(episodes, id).Some? && Find(episodes, id).value.partnerRelated && Find(episodes, id).value.day <= through
  {
    if episodes != [] {
      assert episodes == [episodes[0]] + episodes[1..];
      PartnerIdsListed(episodes[1..], through);
      forall m | m in episodes[1..] ensures m.memoryId != episodes[0].memoryId {
        var k :| 0 <= k < |episodes| - 1 && episodes[1..][k] == m;
        assert episodes[k + 1] == m;
      }
      assert Find(episodes[1..], episodes[0].memoryId).None?;
      assert episodes[0].memoryId !in PartnerIds(episodes[1..], through);
    }
  }

  /** The targets of blocking are exactly the stored partner memories formed through the declared day. */
  lemma PartnerTargetsExact(s: Store, through: nat)
    requires StoreOk(s)
    ensures Distinct(PartnerTargets(s, through)) && SortedBy(AtMost, PartnerTargets(s, through))
    ensures forall id :: id in PartnerTargets(s, through) <==>
              Find(s.episodes, id).Some? && Find(s.episodes, id).value.partnerRelated && Find(s.episodes, id).value.day <= through
  {
    hide MemoryValid, ReframeFits, Find;
    var ids := PartnerIds(s.episodes, through);
    PartnerIdsListed(s.episodes, through);
    AtMostIsTotalPreorder();
    SortByCorrect(AtMost, ids);
    PermutationKeepsDistinct(ids, PartnerTargets(s, through));
    forall id ensures id in PartnerTargets(s, through) <==> id in ids {
      assert id in multiset(PartnerTargets(s, through)) <==> id in multiset(ids);
    }
  }

  lemma {:induction false} WithReadingDistinct(s: Store, ids: seq<string>)
    requires Distinct(ids)
    ensures Distinct(WithReading(s, ids))
  {
    hide Get;
    if ids != [] {
      WithReadingDistinct(s, ids[1..]);
      assert ids == [ids[0]] + ids[1..];
    }
  }

  /** Everything a treatment leaves alone. */
  predicate LeavesAlone(before: MemState, after: MemState) {
    && after.store.episodes == before.store.episodes && after.store.accesses == before.store.accesses
    && after.versions == before.versions && after.records == before.records && after.config == before.config
    && after.relationshipId == before.relationshipId && after.blockedTags == before.blockedTags
  }

  /** A treatment always applies; it writes its own layer only, and one that does nothing changes nothing. */
  lemma TreatmentApplies(spec: Spec, m: MemState, active: seq<string>)
    requires SpecValid(spec) && MemOk(m)
    ensures ApplyTreatment(spec, m, active).Some?
    ensures var e := ApplyTreatment(spec, m, active).value;
            && MemOk(e.memory) && LeavesAlone(m, e.memory)
            && (e.noOp.Some? ==> e.memory == m && e.active == active)
            && (spec.condition != InstructionRemoval ==> e.active == active)
            && (spec.condition != MemoryBlocking ==> e.memory.blockedIds == m.blockedIds)
            && (spec.condition != MemoryReframing ==> e.memory.store == m.store && e.reframes == [])
            && (spec.condition == NoTreatment ==> e.noOp.Some?)
            && (forall id | id in e.active :: id in active)
  {
    hide StoreOk, LedgerOk, RecordValid, SortedIds;
    match spec.condition
    case NoTreatment =>
    case InstructionRemoval =>
    case MemoryBlocking =>
      FiltersKeepMemOk(m, SortedIds(PartnerTargets(m.store, spec.blockThrough.GetOr(Some(0)).value)), m.blockedTags);
    case MemoryReframing =>
      var through := spec.reframeThrough.GetOr(Some(0)).value;
      PartnerTargetsExact(m.store, through);
      WithReadingDistinct(m.store, PartnerTargets(m.store, through));
      var targets := WithReading(m.store, PartnerTargets(m.store, through));
      ReframeAllEffect(m.store, targets, spec.proposition.GetOr(Some("")).value, spec.interventionId, spec.policyVersion.GetOr(Some("")).value);
  }

  lemma SnapshotsOfEffect(m: MemState, active: seq<string>, e: Effect)
    requires LeavesAlone(m, e.memory)
    ensures var before, after := TakeSnapshot(m, active), TakeSnapshot(e.memory, e.active);
            && before.storage == after.storage && before.beliefs == after.beliefs && before.blockedTags == after.blockedTags
            && before.active == active && after.active == e.active
            && before.blockedIds == m.blockedIds && after.blockedIds == e.memory.blockedIds
            && (e.memory.store == m.store ==> before.interpretations == after.interpretations)
  {
  }

  /** With the shock validated, the first activation on day 30 always succeeds and its record is isolated. */
  lemma ActivationIsIsolated(spec: Spec, m: MemState, active: seq<string>, shock: Option<ShockValidation>, records: seq<InterventionRecord>)
    requires SpecValid(spec) && MemOk(m) && shock.Some? && FindApplied(records, spec.interventionId).None?
    ensures var a := Activate(spec, m, active, shock, records, ACTIVATION_DAY);
            && a.Some? && IsolationOk(a.value.record) && MemOk(a.value.memory) && LeavesAlone(m, a.value.memory)
            && a.value.record.spec == spec && a.value.record.previous == LastApplied(records)
            && (a.value.record.noOp.Some? ==> a.value.memory == m && a.value.active == active)
            && (forall id | id in a.value.active :: id in active)
  {
    hide MemOk, ApplyTreatment, TakeSnapshot;
    TreatmentApplies(spec, m, active);
    SnapshotsOfEffect(m, active, ApplyTreatment(spec, m, active).value);
  }

  // ----- The runtime, day by day -----

  /** What the runtime keeps between days; nothing is pending between days. */
  datatype IState = IState(
    spec: Spec,
    instructions: seq<Directive>,
    active: seq<string>,
    shock: Option<ShockValidation>,
    records: seq<InterventionRecord>,
    memory: MemState)

  predicate ByInstructionId(a: Directive, b: Directive) {
    AtMost(a.instructionId, b.instructionId)
  }

  function InstructionIds(ds: seq<Directive>): (r: seq<string>)
    ensures |r| == |ds| && forall i | 0 <= i < |r| :: r[i] == ds[i].instructionId
  {
    if ds == [] then [] else [ds[0].instructionId] + InstructionIds(ds[1..])
  }

  function InitialI(spec: Spec, memory: MemState, instructions: seq<Directive>): IState {
    IState(spec, SortBy(ByInstructionId, instructions), SortBy(AtMost, InstructionIds(instructions)), None, [], memory)
  }

  /** What is visible of instructions and treatment before the action. */
  datatype Overlay = Overlay(day: nat, directives: seq<Directive>, blockedIds: seq<string>, record: Option<InterventionRecord>)

  function FindDirective(ds: seq<Directive>, id: string): Option<Directive> {
    if ds == [] then None else if ds[0].instructionId == id then Some(ds[0]) else FindDirective(ds[1..], id)
  }

  /** `None` is an identifier no directive has. */
  function Lookup(ds: seq<Directive>, ids: seq<string>): Option<seq<Directive>> {
    if ids == [] then Some([])
    else
      var first := FindDirective(ds, ids[0]);
      var rest := Lookup(ds, ids[1..]);
      if first.None? || rest.None? then None else Some([first.value] + rest.value)
  }

  /** The day as prepared: the shock observed, the treatment staged, the retrieval made. */
  datatype Prepared = Prepared(shock: Option<ShockValidation>, staged: Option<Activation>, context: DecisionContext)

  function ObserveShock(i: IState, e: Event): Option<Option<ShockValidation>> {
    if e.day != SHOCK_DAY then Some(i.shock)
    else
      var v := ValidateShock(e);
      if v.None? || (i.shock.Some? && i.shock != v) then None else Some(v)
  }

  /** On day 30 the treatment is applied to a restored clone of the memory. */
  function StageTreatment(i: IState, shock: Option<ShockValidation>, day: nat): Option<Option<Activation>> {
    if day != ACTIVATION_DAY then Some(None)
    else
      var clone := RestoreMem(i.memory);
      if clone.None? then None
      else
        var a := Activate(i.spec, clone.value, i.active, shock, i.records, day);
        if a.None? then None else Some(a)
  }

  function TargetMemory(i: IState, staged: Option<Activation>): MemState {
    if staged.Some? then staged.value.memory else i.memory
  }

  function Prepare(i: IState, score: Scoring, e: Event, goalIds: seq<string>, seed: int): Option<Prepared> {
    var shock := ObserveShock(i, e);
    if shock.None? then None
    else
      var staged := StageTreatment(i, shock.value, e.day);
      if staged.None? then None
      else
        var context := ContextSpec(TargetMemory(i, staged.value), score, e, goalIds, seed);
        if context.None? then None else Some(Prepared(shock.value, staged.value, context.value))
  }

  function OverlayFor(i: IState, staged: Option<Activation>, day: nat): Option<Overlay> {
    if day >= ACTIVATION_DAY && i.records == [] && staged.None? then None
    else
      var directives := Lookup(i.instructions, if staged.Some? then staged.value.active else i.active);
      if directives.None? then None
      else Some(Overlay(day, directives.value, TargetMemory(i, staged).blockedIds,
                        if staged.Some? then Some(staged.value.record) else LastApplied(i.records)))
  }

  /** The day's commit: memory first, and with it the staged treatment. */
  function CommitDay(i: IState, staged: Option<Activation>, pending: PendingCommit, source: StepRecord): Option<IState> {
    var (ok, memory) := CommitMem(TargetMemory(i, staged), pending, source);
    if !ok then None
    else if staged.Some? then Some(i.(active := staged.value.active, records := i.records + [staged.value.record], memory := memory))
    else Some(i.(memory := memory))
  }

  // ----- Checkpoints -----

  /** A runtime checkpoint and the simulation state it is bound to. */
  datatype ICheckpoint = ICheckpoint(state: IState, simulation: SimState)

  predicate ChainedRecord(spec: Spec, records: seq<InterventionRecord>, k: nat)
    requires k < |records|
  {
    records[k].spec == spec && records[k].previous == LastApplied(records[..k]) && IsolationOk(records[k])
  }

  /** The checks a runtime checkpoint passes when it is captured and when it is read. */
  predicate ICheckpointValid(c: ICheckpoint) {
    && SpecValid(c.state.spec)
    && Distinct(InstructionIds(c.state.instructions))
    && IsSubset(c.state.active, InstructionIds(c.state.instructions))
    && CheckpointOk(c.state.memory)
    && (forall k | 0 <= k < |c.state.records| :: ChainedRecord(c.state.spec, c.state.records, k))
    && (c.simulation.nextDay >= SHOCK_DAY + 1 ==> c.state.shock.Some?)
    && (c.simulation.nextDay >= ACTIVATION_DAY + 1 ==> |c.state.records| == 1)
  }

  function CaptureI(i: IState, sim: SimState): Option<ICheckpoint> {
    if ICheckpointValid(ICheckpoint(i, sim)) then Some(ICheckpoint(i, sim)) else None
  }

  function RestoreI(c: ICheckpoint, sim: SimState): Option<IState> {
    if !ICheckpointValid(c) || c.simulation != sim then None
    else
      var memory := RestoreMem(c.state.memory);
      if memory.None? then None
      else Some(c.state.(instructions := SortBy(ByInstructionId, c.state.instructions), memory := memory.value))
  }

  /** What holds of every reachable runtime when `nextDay` is the next unfinished day. */
  ghost predicate IOk(i: IState, nextDay: nat) {
    && SpecValid(i.spec) && MemOk(i.memory)
    && SortedBy(ByInstructionId, i.instructions) && Distinct(InstructionIds(i.instructions))
    && IsSubset(i.active, InstructionIds(i.instructions))
    && (nextDay > SHOCK_DAY ==> i.shock.Some?)
    && (if nextDay <= ACTIVATION_DAY then i.records == []
        else |i.records| == 1 && ChainedRecord(i.spec, i.records, 0))
  }

  /** A checkpoint of a reachable runtime is always accepted, and restores to the same runtime. */
  lemma RuntimeRoundTrip(i: IState, sim: SimState)
    requires IOk(i, sim.nextDay)
    ensures CaptureI(i, sim) == Some(ICheckpoint(i, sim))
    ensures RestoreI(ICheckpoint(i, sim), sim) == Some(i)
  {
    hide MemOk, CheckpointOk, RestoreMem, SortBy, ChainedRecord, SortedBy;
    MemRoundTrip(i.memory);
    SortedIsFixed(ByInstructionId, i.instructions);
  }

  lemma {:induction false} NoneAppliedYet(records: seq<InterventionRecord>, id: string)
    requires records == []
    ensures FindApplied(records, id).None? && LastApplied(records).None?
  {
  }

  /** Staging on a reachable runtime: the clone is the memory itself, and activation succeeds. */
  lemma StagingIsSafe(i: IState, shock: Option<ShockValidation>, day: nat)
    requires IOk(i, day) && (day == ACTIVATION_DAY ==> shock.Some?)
    ensures StageTreatment(i, shock, day).Some?
    ensures var staged := StageTreatment(i, shock, day).value;
            && (staged.Some? <==> day == ACTIVATION_DAY)
            && MemOk(TargetMemory(i, staged)) && LeavesAlone(i.memory, TargetMemory(i, staged))
            && (staged.Some? ==> && IsolationOk(staged.value.record) && staged.value.record.spec == i.spec
                                 && staged.value.record.previous.None? && IsSubset(staged.value.active, i.active)
                                 && staged == Activate(i.spec, i.memory, i.active, shock, [], ACTIVATION_DAY))
  {
    hide MemOk, RestoreMem, Activate, IsolationOk, SortedBy;
    if day == ACTIVATION_DAY {
      MemRoundTrip(i.memory);
      NoneAppliedYet(i.records, i.spec.interventionId);
      ActivationIsIsolated(i.spec, i.memory, i.active, shock, i.records);
    }
  }

  /** A committed day keeps the runtime sound: the shock by day 26, exactly one record from day 30 on. */
  lemma CommitKeepsIOk(i: IState, score: Scoring, e: Event, goalIds: seq<string>, seed: int, pending: PendingCommit, source: StepRecord)
    requires IOk(i, e.day) && Prepare(i, score, e, goalIds, seed).Some? && 1 <= e.day <= LAST_DAY
    requires RecordValid(pending.retrieval) && pending.day == e.day
    ensures var p := Prepare(i, score, e, goalIds, seed).value;
            var after := CommitDay(i.(shock := p.shock), p.staged, pending, source);
            after.Some? ==> IOk(after.value, e.day + 1)
  {
    hide MemOk, RecordValid, SortedBy, CommitMem, IsolationOk, Activate, RestoreMem, ContextSpec, ValidateShock;
    var p := Prepare(i, score, e, goalIds, seed).value;
    StagingIsSafe(i, p.shock, e.day);
    CommitKeepsMemOk(TargetMemory(i, p.staged), pending, source);
    var after := CommitDay(i.(shock := p.shock), p.staged, pending, source);
    if e.day == ACTIVATION_DAY && after.Some? {
      assert after.value.records == [p.staged.value.record];
      assert after.value.records[..0] == [];
    }
  }

  lemma InitialIOk(spec: Spec, memory: MemState, instructions: seq<Directive>)
    requires SpecValid(spec) && MemOk(memory) && Distinct(InstructionIds(instructions))
    ensures IOk(InitialI(spec, memory, instructions), 1)
  {
    hide MemOk, SortBy, SortedBy, SpecValid;
    var sorted := SortBy(ByInstructionId, instructions);
    AtMostIsTotalPreorder();
    forall a: Directive, b: Directive ensures ByInstructionId(a, b) || ByInstructionId(b, a) {
      assert AtMost(a.instructionId, b.instructionId) || AtMost(b.instructionId, a.instructionId);
    }
    forall a: Directive, b: Directive, c: Directive | ByInstructionId(a, b) && ByInstructionId(b, c) ensures ByInstructionId(a, c) {
      assert AtMost(a.instructionId, b.instructionId) && AtMost(b.instructionId, c.instructionId);
    }
    SortByCorrect(ByInstructionId, instructions);
    SortByCorrect(AtMost, InstructionIds(instructions));
    SortedDirectives(instructions, sorted);
    forall id | id in SortBy(AtMost, InstructionIds(instructions)) ensures id in InstructionIds(sorted) {
      assert id in multiset(SortBy(AtMost, InstructionIds(instructions)));
    }
  }

  predicate DistinctDirectives(ds: seq<Directive>) {
    forall i, j | 0 <= i < j < |ds| :: ds[i].instructionId != ds[j].instructionId
  }

  lemma DirectiveIds(ds: seq<Directive>)
    ensures Distinct(InstructionIds(ds)) <==> DistinctDirectives(ds)
    ensures forall id :: id in InstructionIds(ds) <==> exists d :: d in ds && d.instructionId == id
  {
    forall id ensures id in InstructionIds(ds) <==> exists d :: d in ds && d.instructionId == id {
      if id in InstructionIds(ds) {
        var i :| 0 <= i < |ds| && InstructionIds(ds)[i] == id;
        assert ds[i] in ds;
      }
      if d :| d in ds && d.instructionId == id {
        var i :| 0 <= i < |ds| && ds[i] == d;
        assert InstructionIds(ds)[i] == id;
      }
    }
  }

  lemma SameIdSameDirective(ds: seq<Directive>, a: Directive, b: Directive)
    requires DistinctDirectives(ds) && a in ds && b in ds && a.instructionId == b.instructionId
    ensures a == b
  {
    var i :| 0 <= i < |ds| && ds[i] == a;
    var j :| 0 <= j < |ds| && ds[j] == b;
  }

  lemma SortedDirectives(instructions: seq<Directive>, sorted: seq<Directive>)
    requires Distinct(InstructionIds(instructions)) && multiset(sorted) == multiset(instructions)
    ensures Distinct(InstructionIds(sorted)) && forall id | id in InstructionIds(instructions) :: id in InstructionIds(sorted)
  {
    hide InstructionIds, Distinct;
    DirectiveIds(instructions);
    DirectiveIds(sorted);
    DirectivesAreDistinct(instructions);
    PermutationKeepsDistinct(instructions, sorted);
    forall d ensures d in sorted <==> d in instructions {
      assert d in multiset(sorted) <==> d in multiset(instructions);
    }
    PermutedDirectives(instructions, sorted);
  }

  lemma DirectivesAreDistinct(ds: seq<Directive>)
    requires DistinctDirectives(ds)
    ensures Distinct(ds)
  {
  }

  lemma PermutedDirectives(instructions: seq<Directive>, sorted: seq<Directive>)
    requires DistinctDirectives(instructions) && Distinct(sorted) && forall d :: d in sorted <==> d in instructions
    ensures DistinctDirectives(sorted)
  {
    forall i, j | 0 <= i < j < |sorted| ensures sorted[i].instructionId != sorted[j].instructionId {
      if sorted[i].instructionId == sorted[j].instructionId {
        SameIdSameDirective(instructions, sorted[i], sorted[j]);
        assert false;
      }
    }
  }

  lemma {:induction false} LookupSucceeds(ds: seq<Directive>, ids: seq<string>)
    requires IsSubset(ids, InstructionIds(ds))
    ensures Lookup(ds, ids).Some?
  {
    if ids != [] {
      assert ids == [ids[0]] + ids[1..];
      DirectiveFound(ds, ids[0]);
      LookupSucceeds(ds, ids[1..]);
    }
  }

  lemma {:induction false} DirectiveFound(ds: seq<Directive>, id: string)
    requires id in InstructionIds(ds)
    ensures FindDirective(ds, id).Some?
  {
    if ds[0].instructionId != id {
      assert InstructionIds(ds) == [ds[0].instructionId] + InstructionIds(ds[1..]);
      DirectiveFound(ds[1..], id);
    }
  }

  // ----- The runtime -----

  lemma {:induction false} ReframingSoFar(s: Store, ids: seq<string>, i: nat, proposition: string, interventionId: string, policy: string)
    requires i < |ids| && ReframeAll(s, ids[..i], proposition, interventionId, policy).Some?
    ensures var (next, events) := ReframeAll(s, ids[..i], proposition, interventionId, policy).value;
            var one := ReframeAll(next, [ids[i]], proposition, interventionId, policy);
            ReframeAll(s, ids[..i + 1], proposition, interventionId, policy)
            == if one.None? then None else Some((one.value.0, events + one.value.1))
    decreases i
  {
    hide ReframeSpec, Get, Revised;
    if i == 0 {
      assert ids[..1] == [ids[0]] && ids[..0] == [];
      var one := ReframeAll(s, [ids[0]], proposition, interventionId, policy);
      if one.Some? {
        assert [] + one.value.1 == one.value.1;
      }
    } else {
      var rest := ids[1..];
      assert ids[..i][1..] == rest[..i - 1] && ids[..i + 1][1..] == rest[..i];
      var (result, next) := ReframeSpec(s, ids[0], Revised(Get(s, ids[0]).value.interpretation.value, proposition), interventionId, policy);
      ReframingSoFar(next, rest, i - 1, proposition, interventionId, policy);
      var (last, events) := ReframeAll(next, rest[..i - 1], proposition, interventionId, policy).value;
      var one := ReframeAll(last, [ids[i]], proposition, interventionId, policy);
      if one.Some? {
        assert [result.event] + (events + one.value.1) == [result.event] + events + one.value.1;
      }
    }
  }

  lemma OneReframing(s: Store, id: string, proposition: string, interventionId: string, policy: string)
    requires Get(s, id).Some? && Get(s, id).value.interpretation.Some?
    ensures var (result, next) := ReframeSpec(s, id, Revised(Get(s, id).value.interpretation.value, proposition), interventionId, policy);
            ReframeAll(s, [id], proposition, interventionId, policy) == if result.Reframed? then Some((next, [result.event])) else None
  {
    hide ReframeSpec, Revised;
    var (result, next) := ReframeSpec(s, id, Revised(Get(s, id).value.interpretation.value, proposition), interventionId, policy);
    assert [id][1..] == [];
    if result.Reframed? {
      assert ReframeAll(next, [], proposition, interventionId, policy) == Some((next, []));
      assert [result.event] + [] == [result.event];
    }
  }

  lemma {:induction false} ReframingFailsEarly(s: Store, ids: seq<string>, i: nat, proposition: string, interventionId: string, policy: string)
    requires i <= |ids| && ReframeAll(s, ids[..i], proposition, interventionId, policy).None?
    ensures ReframeAll(s, ids, proposition, interventionId, policy).None?
    decreases |ids| - i
  {
    hide ReframeSpec, Get, Revised;
    if i == |ids| {
      assert ids[..i] == ids;
    } else {
      ReframingPrefixFails(s, ids, i, proposition, interventionId, policy);
      ReframingFailsEarly(s, ids, i + 1, proposition, interventionId, policy);
    }
  }

  lemma {:induction false} ReframingPrefixFails(s: Store, ids: seq<string>, i: nat, proposition: string, interventionId: string, policy: string)
    requires i < |ids| && ReframeAll(s, ids[..i], proposition, interventionId, policy).None?
    ensures ReframeAll(s, ids[..i + 1], proposition, interventionId, policy).None?
    decreases i
  {
    hide ReframeSpec, Revised;
    if i > 0 && Get(s, ids[0]).Some? && Get(s, ids[0]).value.interpretation.Some? {
      var rest := ids[1..];
      assert ids[..i][1..] == rest[..i - 1] && ids[..i + 1][1..] == rest[..i];
      var (result, next) := ReframeSpec(s, ids[0], Revised(Get(s, ids[0]).value.interpretation.value, proposition), interventionId, policy);
      if result.Reframed? {
        ReframingPrefixFails(next, rest, i - 1, proposition, interventionId, policy);
      }
    }
  }

  class InterventionRuntime {
    const spec: Spec
    const instructions: seq<Directive>
    const score: Scoring
    var memory: MemoryRuntime
    var active: seq<string>
    var shock: Option<ShockValidation>
    var records: seq<InterventionRecord>
    /** The staged clone of day 30, with what becomes of instructions and records if the day commits. */
    var stagedMemory: MemoryRuntime?
    var stagedActive: seq<string>
    var stagedRecord: Option<InterventionRecord>

    /** The clone shares no object with the live memory. */
    ghost predicate Valid()
      reads this
    {
      && memory.Valid() && memory.score == score
      && (stagedMemory != null ==>
            && stagedMemory.Valid() && stagedMemory.score == score && stagedRecord.Some? && stagedMemory.Repr() !! memory.Repr())
    }

    ghost function Repr(): set<object>
      reads this
    {
      {this} + memory.Repr() + (if stagedMemory != null then stagedMemory.Repr() else {})
    }

    function State(): IState
      reads this, memory.Repr()
    {
      IState(spec, instructions, active, shock, records, memory.State())
    }

    ghost function Staged(): Option<Activation>
      requires Valid()
      reads this, if stagedMemory != null then stagedMemory.Repr() else {}
    {
      if stagedMemory == null then None else Some(Activation(stagedMemory.State(), stagedActive, stagedRecord.value))
    }

    constructor (spec: Spec, memory: MemoryRuntime, instructions: seq<Directive>)
      requires memory.Valid()
      ensures Valid() && this.memory == memory && score == memory.score && stagedMemory == null
      ensures State() == InitialI(spec, memory.State(), instructions)
    {
      this.spec := spec;
      this.memory := memory;
      this.instructions := SortBy(ByInstructionId, instructions);
      score := memory.score;
      active := SortBy(AtMost, InstructionIds(instructions));
      shock, records := None, [];
      stagedMemory, stagedActive, stagedRecord := null, [], None;
    }

    method ObserveRealityShock(e: Event) returns (ok: bool)
      modifies this`shock
      ensures ok <==> ValidateShock(e).Some? && (old(shock).Some? ==> old(shock) == ValidateShock(e))
      ensures shock == if ok then ValidateShock(e) else old(shock)
    {
      hide ValidateShock;
      var v := ValidateShock(e);
      if v.None? || (shock.Some? && shock != v) {
        return false;
      }
      shock := v;
      return true;
    }

    /** Mutates the one declared layer of whatever memory is in place. */
    method ApplyActivation(day: nat) returns (r: Option<InterventionRecord>)
      requires memory.Valid()
      modifies this`active, memory, memory.store
      ensures var a := Activate(spec, old(memory.State()), old(active), shock, records, day);
              && (r.Some? <==> a.Some?)
              && (a.Some? ==> r == Some(a.value.record) && memory.State() == a.value.memory && active == a.value.active)
    {
      hide IsolationOk, TakeSnapshot, PartnerTargets, WithReading, Among, ReframeAll, SortedIds, FindApplied;
      var existing := FindApplied(records, spec.interventionId);
      if existing.Some? {
        return if day != ACTIVATION_DAY then None else existing;
      }
      if day != ACTIVATION_DAY || shock.None? {
        return None;
      }
      var before := TakeSnapshot(memory.State(), active);
      var targets: seq<string>, reframes: seq<ReframeEvent>, noOp: Option<NoOpReason>, changed: seq<Layer> := [], [], None, [];
      match spec.condition {
        case NoTreatment =>
          noOp := Some(AssignedNoTreatment);
        case InstructionRemoval =>
          targets := Among(spec.targetInstructions, active, true);
          if targets == [] {
            noOp := Some(TargetNotActive);
          } else {
            active := Among(active, targets, false);
            changed := [Instructions];
          }
        case MemoryBlocking =>
          targets := PartnerTargets(memory.store.State(), spec.blockThrough.GetOr(Some(0)).value);
          if targets == [] {
            noOp := Some(NoEligibleMemory);
          } else {
            memory.SetBlockedIds(targets);
            changed := [RetrievalPolicy];
          }
        case MemoryReframing =>
          targets := WithReading(memory.store.State(), PartnerTargets(memory.store.State(), spec.reframeThrough.GetOr(Some(0)).value));
          if targets == [] {
            noOp := Some(NoEligibleMemory);
          } else {
            var ok;
            ok, reframes := ReframeTargets(targets);
            if !ok {
              return None;
            }
            changed := [Interpretations];
          }
      }
      var record := InterventionRecord(spec, day, shock.value, targets, changed, noOp, before, TakeSnapshot(memory.State(), active),
                                       reframes, LastApplied(records));
      return if IsolationOk(record) then Some(record) else None;
    }

    method ReframeTargets(targets: seq<string>) returns (ok: bool, reframes: seq<ReframeEvent>)
      requires memory.Valid()
      modifies memory.store
      ensures var r := ReframeAll(old(memory.store.State()), targets, spec.proposition.GetOr(Some("")).value, spec.interventionId,
                                  spec.policyVersion.GetOr(Some("")).value);
              && (ok <==> r.Some?)
              && (ok ==> memory.store.State() == r.value.0 && reframes == r.value.1)
    {
      hide Get, ReframeSpec, Revised;
      var proposition, policy := spec.proposition.GetOr(Some("")).value, spec.policyVersion.GetOr(Some("")).value;
      ghost var start := memory.store.State();
      reframes := [];
      for i := 0 to |targets|
        invariant ReframeAll(start, targets[..i], proposition, spec.interventionId, policy) == Some((memory.store.State(), reframes))
      {
        var id := targets[i];
        ReframingSoFar(start, targets, i, proposition, spec.interventionId, policy);
        var current := Get(memory.store.State(), id);
        if current.None? || current.value.interpretation.None? {
          ReframingFailsEarly(start, targets, i + 1, proposition, spec.interventionId, policy);
          return false, reframes;
        }
        OneReframing(memory.store.State(), id, proposition, spec.interventionId, policy);
        var result := memory.store.Reframe(id, Revised(current.value.interpretation.value, proposition), spec.interventionId, policy);
        if !result.Reframed? {
          ReframingFailsEarly(start, targets, i + 1, proposition, spec.interventionId, policy);
          return false, reframes;
        }
        reframes := reframes + [result.event];
      }
      assert targets[..|targets|] == targets;
      return true, reframes;
    }

    method DropStaged()
      requires Valid()
      modifies this`stagedMemory
      ensures Valid() && stagedMemory == null && State() == old(State())
    {
      stagedMemory := null;
    }

    /** Applies the treatment to a restored clone, with the live memory and instructions put back after. */
    method StageOnClone(day: nat) returns (ok: bool)
      requires Valid() && stagedMemory == null && day == ACTIVATION_DAY
      modifies this
      ensures Valid() && State() == old(State()) && memory == old(memory)
      ensures ok <==> StageTreatment(old(State()), old(shock), day).Some?
      ensures if ok then stagedMemory != null && fresh(stagedMemory.Repr()) && Some(Staged()) == StageTreatment(old(State()), old(shock), day)
              else stagedMemory == null
    {
      hide Activate, RestoreMem;
      var live, before := memory, active;
      var clone := MemoryRuntime.Restore(live.State(), score);
      if clone.None? {
        return false;
      }
      memory := clone.value;
      var record := ApplyActivation(day);
      var after := active;
      memory, active := live, before;
      if record.None? {
        return false;
      }
      stagedMemory, stagedActive, stagedRecord := clone.value, after, record;
      return true;
    }

    /** Observes the shock, stages the treatment, and retrieves for the action. A treatment still staged
        from a failed day 30 is dropped first. */
    method ContextForAction(e: Event, goalIds: seq<string>, seed: int) returns (r: Option<DecisionContext>)
      requires Valid() && (stagedMemory != null ==> e.day == ACTIVATION_DAY)
      modifies this
      ensures Valid() && memory == old(memory) && memory.State() == old(memory.State())
      ensures records == old(records) && active == old(active)
      ensures r.Some? <==> Prepare(old(State()), score, e, goalIds, seed).Some?
      ensures r.Some? ==>
                var p := Prepare(old(State()), score, e, goalIds, seed).value;
                r.value == p.context && shock == p.shock && Staged() == p.staged && (stagedMemory != null ==> fresh(stagedMemory.Repr()))
      ensures r.None? ==> stagedMemory == null
    {
      hide Activate, RestoreMem, ContextSpec, ValidateShock, StageTreatment;
      DropStaged();
      if e.day == SHOCK_DAY {
        var observed := ObserveRealityShock(e);
        if !observed {
          return None;
        }
      }
      ghost var i := old(State());
      assert State() == i.(shock := shock) && ObserveShock(i, e) == Some(shock);
      StagingIgnoresShockField(i, shock, e.day);
      NothingStaged(i, shock, e.day);
      if e.day == ACTIVATION_DAY {
        var ok := StageOnClone(e.day);
        if !ok {
          return None;
        }
      }
      if stagedMemory != null {
        r := stagedMemory.ContextForAction(e, goalIds, seed);
      } else {
        r := memory.ContextForAction(e, goalIds, seed);
      }
      if r.None? {
        DropStaged();
      }
    }

    /** What a prompt may show before the action: instructions, filters and the record, staged or committed. */
    method PreActionOverlay(day: nat) returns (r: Option<Overlay>)
      requires Valid()
      ensures r == OverlayFor(State(), Staged(), day)
    {
      if day >= ACTIVATION_DAY && records == [] && stagedMemory == null {
        return None;
      }
      var directives := Lookup(instructions, if stagedMemory != null then stagedActive else active);
      if directives.None? {
        return None;
      }
      return Some(Overlay(day, directives.value, if stagedMemory != null then stagedMemory.blockedIds else memory.blockedIds,
                          if stagedMemory != null then stagedRecord else LastApplied(records)));
    }

    method StageAfterConsequence(e: Event, action: Action, outcome: Application, context: DecisionContext) returns (p: PendingCommit)
      requires Valid()
      ensures p == StageSpec(TargetMemory(State(), Staged()).config, e, action, outcome, context)
    {
      if stagedMemory != null {
        p := stagedMemory.StageAfterConsequence(e, action, outcome, context);
      } else {
        p := memory.StageAfterConsequence(e, action, outcome, context);
      }
    }

    /** Commits the day's memory and, with it, the staged treatment. On failure the treatment is dropped;
        a failed commit on any other day may leave the live memory half written. */
    method CommitAfterStep(pending: PendingCommit, source: StepRecord) returns (ok: bool)
      requires Valid()
      modifies Repr()
      ensures Valid() && stagedMemory == null
      ensures memory == old(memory) || memory == old(stagedMemory)
      ensures ok <==> CommitDay(old(State()), old(Staged()), pending, source).Some?
      ensures ok ==> State() == CommitDay(old(State()), old(Staged()), pending, source).value
      ensures !ok && old(stagedMemory) != null ==> memory == old(memory) && State() == old(State())
      ensures !ok && old(stagedMemory) == null ==>
                memory == old(memory) && State() == old(State()).(memory := CommitMem(old(memory.State()), pending, source).1)
    {
      hide CommitMem;
      if stagedMemory != null {
        ok := stagedMemory.CommitAfterStep(pending, source);
        if ok {
          memory, active, records := stagedMemory, stagedActive, records + [stagedRecord.value];
        }
      } else {
        ok := memory.CommitAfterStep(pending, source);
      }
      stagedMemory := null;
    }

    method Snapshot(sim: SimState) returns (c: Option<ICheckpoint>)
      requires Valid()
      modifies this`stagedMemory
      ensures Valid() && stagedMemory == null && State() == old(State()) && memory == old(memory)
      ensures c == CaptureI(State(), sim)
    {
      hide ICheckpointValid;
      DropStaged();
      c := CaptureI(IState(spec, instructions, active, shock, records, memory.State()), sim);
    }

    static method Restore(c: ICheckpoint, sim: SimState, score: Scoring) returns (r: Option<InterventionRuntime>)
      ensures r.Some? <==> RestoreI(c, sim).Some?
      ensures r.Some? ==>
                && r.value.Valid() && fresh(r.value) && fresh(r.value.memory.Repr()) && r.value.stagedMemory == null
                && r.value.score == score && r.value.State() == RestoreI(c, sim).value
    {
      hide ICheckpointValid, RestoreMem, SortBy;
      if !ICheckpointValid(c) || c.simulation != sim {
        return None;
      }
      var memory := MemoryRuntime.Restore(c.state.memory, score);
      if memory.None? {
        return None;
      }
      var runtime := new InterventionRuntime(c.state.spec, memory.value, c.state.instructions);
      runtime.active := c.state.active;
      runtime.shock := c.state.shock;
      runtime.records := c.state.records;
      return Some(runtime);
    }
  }

  lemma NothingStaged(i: IState, shock: Option<ShockValidation>, day: nat)
    ensures day != ACTIVATION_DAY ==> StageTreatment(i, shock, day) == Some(None)
  {
  }

  lemma StagingIgnoresShockField(i: IState, shock: Option<ShockValidation>, day: nat)
    ensures StageTreatment(i.(shock := shock), shock, day) == StageTreatment(i, shock, day)
  {
  }
}
