/** The mutable composite: bridge, model, engine and cell, with every sidecar rolled back when a stage fails. */
module Execution {
  import opened Wrappers
  import opened Ordering
  import opened World
  import opened Episodes
  import opened Beliefs
  import opened Retrieval
  import opened MemoryRuntime
  import opened Interventions
  import opened Harness

  /** Where an unexpected exception strikes: right after a stage has done its work, or midway at any point of the day. */
  datatype Fault = NoFault | AtContext | AtSelection | AtConsequence | AtLanguage | AtRecord | AtCommit | AtEvidence | Midway

  datatype PendingTrace = PendingTrace(
    requestId: RequestId,
    input: ModelInput,
    selected: seq<SelectedMemory>,
    overlay: Overlay,
    prompt: string,
    key: ActionKey,
    ledger: Ledger)

  /** Delegates to the runtime and keeps the pre-action context it saw. */
  class HarnessMemoryBridge {
    var runtime: InterventionRuntime
    var latestEvent: Option<Event>
    var latestContext: Option<DecisionContext>
    var latestOverlay: Option<Overlay>

    constructor (runtime: InterventionRuntime)
      ensures this.runtime == runtime && latestEvent == None && latestContext == None && latestOverlay == None
    {
      this.runtime := runtime;
      latestEvent, latestContext, latestOverlay := None, None, None;
    }

    method ContextForAction(e: Event, goalIds: seq<string>, seed: int) returns (r: Option<DecisionContext>)
      requires runtime.Valid() && runtime.stagedMemory == null
      modifies this`latestEvent, this`latestContext, this`latestOverlay, runtime
      ensures runtime.Valid() && runtime.memory == old(runtime.memory) && runtime.memory.State() == old(runtime.memory.State())
      ensures runtime.records == old(runtime.records) && runtime.active == old(runtime.active)
      ensures runtime.stagedMemory != null ==> fresh(runtime.stagedMemory.Repr())
      ensures var p := Prepare(old(runtime.State()), runtime.score, e, goalIds, seed);
              && (r.Some? <==> p.Some? && OverlayFor(old(runtime.State()), p.value.staged, e.day).Some?)
              && (r.Some? ==>
                    && r == Some(p.value.context) && latestEvent == Some(e) && latestContext == r
                    && latestOverlay == OverlayFor(old(runtime.State()), p.value.staged, e.day)
                    && runtime.shock == p.value.shock && runtime.Staged() == p.value.staged)
    {
      hide Prepare, Lookup;
      r := runtime.ContextForAction(e, goalIds, seed);
      if r.None? {
        return;
      }
      latestEvent, latestContext := Some(e), r;
      latestOverlay := runtime.PreActionOverlay(e.day);
      if latestOverlay.None? {
        r := None;
      }
    }

    method ReplaceRuntime(runtime: InterventionRuntime)
      modifies this
      ensures this.runtime == runtime && latestEvent == None && latestContext == None && latestOverlay == None
    {
      this.runtime := runtime;
      latestEvent, latestContext, latestOverlay := None, None, None;
    }
  }

  /** What the model must see of the bridge to answer the planned request. */
  predicate SeesPlan(bridge: HarnessMemoryBridge, p: DayPlan)
    reads bridge
  {
    bridge.latestEvent == Some(p.event) && bridge.latestContext == Some(p.prepared.context) && bridge.latestOverlay == Some(p.overlay)
  }

  /** The deterministic two-stage model and its ledger. */
  class Gate2DeterministicModel {
    const scenario: Scenario
    const oracles: Oracles
    const bridge: HarnessMemoryBridge
    var ledger: Ledger
    var pending: map<DecisionId, PendingTrace>
    var traces: seq<Trace>

    constructor (scenario: Scenario, oracles: Oracles, bridge: HarnessMemoryBridge, ledger: Ledger)
      ensures this.scenario == scenario && this.oracles == oracles && this.bridge == bridge && this.ledger == ledger
      ensures pending == map[] && traces == []
    {
      this.scenario := scenario;
      this.oracles := oracles;
      this.bridge := bridge;
      this.ledger := ledger;
      pending, traces := map[], [];
    }

    /** The rich input of a request, from what the bridge captured; `None` is a broken binding. */
    method RichInput(request: Request, ghost plan: DayPlan) returns (r: Option<(ModelInput, seq<SelectedMemory>)>)
      requires bridge.runtime.Valid()
      ensures IsPlanned(plan, request) ==> r == Some((plan.input, plan.selected))
      ensures r.Some? ==> ShownMemories(TargetMemory(bridge.runtime.State(), bridge.runtime.Staged()).store, request.retrievedIds).Some?
    {
      hide ShownMemories, SortedIds, GoalsOf, OverlayFor, Current;
      if bridge.latestEvent.None? || bridge.latestContext.None? || bridge.latestOverlay.None? {
        return None;
      }
      var e, c, ov := bridge.latestEvent.value, bridge.latestContext.value, bridge.latestOverlay.value;
      if e.eventId != request.eventId || e.day != request.day || request.retrievedIds != c.retrievedIds {
        return None;
      }
      var runtime := bridge.runtime;
      var store := if runtime.stagedMemory != null then runtime.stagedMemory.store.State() else runtime.memory.store.State();
      var selected := ShownMemories(store, c.retrievedIds);
      if selected.None? {
        return None;
      }
      var again := runtime.PreActionOverlay(request.day);
      if again != Some(ov) {
        return None;
      }
      var belief := Current(runtime.memory.beliefs.versions, BeliefIdOf(runtime.memory.relationshipId));
      return Some((InputOf(scenario, e, request, SortedIds(GoalsOf(scenario, e.actionIds)), selected.value, belief, ov), selected.value));
    }

    /** Chooses the action; the ledger moves and the trace stays pending until the language. */
    method SelectAction(request: Request, seed: int, ghost p: DayPlan) returns (s: Option<Selection>)
      requires bridge.runtime.Valid()
      modifies this`ledger, this`pending
      ensures s.Some? ==> old(ShownMemories(TargetMemory(bridge.runtime.State(), bridge.runtime.Staged()).store, request.retrievedIds).Some?)
      ensures old(IsPlanned(p, request)) ==>
                var chosen := oracles.choose(p.input, seed);
                && (s.Some? <==> chosen in scenario.actions)
                && (s.Some? ==>
                      var action, prompt := scenario.actions[chosen], oracles.renderAction(p.input);
                      var key := ActionKey(scenario.modelConfigId, p.input, prompt, seed);
                      && s == Some(SelectionOf(oracles, p, action, seed))
                      && ledger == ActionEntry(old(ledger), key, s.value)
                      && s.value.decisionId in pending
                      && pending[s.value.decisionId] == PendingTrace(p.request.requestId, p.input, p.selected, p.overlay, prompt, key, ledger))
    {
      hide SortedIds, GoalsOf, OverlayFor, ShownMemories, CurrentBelief;
      var rich := RichInput(request, p);
      if rich.None? {
        return None;
      }
      var (input, selected) := rich.value;
      var prompt := oracles.renderAction(input);
      var key := ActionKey(scenario.modelConfigId, input, prompt, seed);
      var chosen := oracles.choose(input, seed);
      if chosen !in scenario.actions || bridge.latestOverlay.None? {
        return None;
      }
      var action := scenario.actions[chosen];
      var selection := Selection(DecisionId(action.actionId, input, seed), action.actionId, action.cost, request.retrievedIds);
      ledger := ActionEntry(ledger, key, selection);
      pending := pending[selection.decisionId := PendingTrace(request.requestId, input, selected, bridge.latestOverlay.value, prompt, key, ledger)];
      return Some(selection);
    }

    /** The plan the bridge and the runtime are in the middle of, for this request. */
    ghost predicate IsPlanned(p: DayPlan, request: Request)
      requires bridge.runtime.Valid()
      reads bridge, bridge.runtime, bridge.runtime.memory.Repr(),
            if bridge.runtime.stagedMemory != null then bridge.runtime.stagedMemory.Repr() else {}
    {
      var i, staged := bridge.runtime.State(), bridge.runtime.Staged();
      && SeesPlan(bridge, p) && p.request == request
      && p.event.eventId == request.eventId && p.event.day == request.day && request.retrievedIds == p.prepared.context.retrievedIds
      && OverlayFor(i, staged, request.day) == Some(p.overlay)
      && ShownMemories(TargetMemory(i, staged).store, request.retrievedIds) == Some(p.selected)
      && p.input == InputOf(scenario, p.event, request, SortedIds(GoalsOf(scenario, p.event.actionIds)), p.selected, CurrentBelief(i.memory), p.overlay)
    }

    /** Answers only for a committed action; completes the trace. */
    method GeneratePublicLanguage(request: Request, s: Selection, c: Commitment, seed: int) returns (response: Option<string>)
      modifies this
      ensures traces == old(traces) || (|traces| == |old(traces)| + 1 && traces[..|old(traces)|] == old(traces))
      ensures s.decisionId in old(pending) && old(pending)[s.decisionId].requestId == request.requestId ==>
                var t := old(pending)[s.decisionId];
                var text := oracles.renderLanguage(t.input, c);
                var key := LanguageKey(c, scenario.modelConfigId, t.input, text, seed);
                && response == Some(Response(s.actionId))
                && ledger == LanguageEntry(t.ledger, key)
                && traces == old(traces) + [Trace(t.requestId, t.input, t.selected, t.overlay, t.prompt, t.key, text, key, ledger)]
    {
      if s.decisionId !in pending {
        return None;
      }
      var t := pending[s.decisionId];
      pending := pending - {s.decisionId};
      if t.requestId != request.requestId {
        return None;
      }
      var text := oracles.renderLanguage(t.input, c);
      var key := LanguageKey(c, scenario.modelConfigId, t.input, text, seed);
      ledger := LanguageEntry(t.ledger, key);
      traces := traces + [Trace(t.requestId, t.input, t.selected, t.overlay, t.prompt, t.key, text, key, ledger)];
      return Some(Response(s.actionId));
    }

    /** Goes back to an earlier ledger; the traces since are forgotten. */
    method RestoreState(ledger: Ledger, count: nat)
      requires count <= |traces|
      modifies this
      ensures this.ledger == ledger && traces == old(traces)[..count] && pending == map[]
    {
      this.ledger := ledger;
      traces := traces[..count];
      pending := map[];
    }

    /** The one trace of a request; `None` when it is missing or repeated. */
    method TraceForRequest(id: RequestId) returns (t: Option<Trace>)
      ensures t.Some? <==> exists k :: IsOnlyTrace(traces, id, k)
      ensures forall k | 0 <= k < |traces| && IsOnlyTrace(traces, id, k) :: t == Some(traces[k])
    {
      var matches := Matching(traces, id);
      forall k | 0 <= k < |traces| && IsOnlyTrace(traces, id, k) ensures matches == [traces[k]] {
        OnlyTraceMatches(traces, id, k);
      }
      if |matches| != 1 {
        return None;
      }
      ghost var k := OnlyMatchIsOnlyTrace(traces, id);
      return Some(matches[0]);
    }
  }

  predicate KeyedByAction(scn: Scenario) {
    forall id | id in scn.actions :: scn.actions[id].actionId == id
  }

  /** A plan from the parts the engine computes one after the other. */
  lemma PlanBuilt(scn: Scenario, o: Oracles, sim: SimState, i: IState, e: Event, menu: seq<MenuItem>, p: Prepared, overlay: Overlay)
    requires EventFor(scn, sim) == Some(e) && MenuOf(scn, e.actionIds) == Some(menu)
    requires Prepare(i, o.score, e, SortedIds(GoalsOf(scn, e.actionIds)), o.seedFor("memory-retrieval", e)) == Some(p)
    requires OverlayFor(i, p.staged, e.day) == Some(overlay)
    ensures var selected := ShownMemories(TargetMemory(i, p.staged).store, p.context.retrievedIds);
            var request := RequestOf(scn, e, menu, p.context);
            PlanDay(scn, o, sim, i)
            == if selected.None? then None
               else Some(DayPlan(e, menu, p, overlay, request, selected.value,
                                 InputOf(scn, e, request, SortedIds(GoalsOf(scn, e.actionIds)), selected.value, CurrentBelief(i.memory), overlay)))
  {
    hide EventFor, MenuOf, Prepare, OverlayFor, ShownMemories, SortedIds, GoalsOf, InputOf, CurrentBelief, TargetMemory;
  }

  lemma NoPlanWithout(scn: Scenario, o: Oracles, sim: SimState, i: IState)
    ensures EventFor(scn, sim).None? ==> PlanDay(scn, o, sim, i).None?
    ensures EventFor(scn, sim).Some? && MenuOf(scn, EventFor(scn, sim).value.actionIds).None? ==> PlanDay(scn, o, sim, i).None?
    ensures EventFor(scn, sim).Some? ==>
              var e := EventFor(scn, sim).value;
              var p := Prepare(i, o.score, e, SortedIds(GoalsOf(scn, e.actionIds)), o.seedFor("memory-retrieval", e));
              p.None? || OverlayFor(i, p.value.staged, e.day).None? ==> PlanDay(scn, o, sim, i).None?
  {
    hide EventFor, MenuOf, Prepare, OverlayFor, ShownMemories, SortedIds, GoalsOf, InputOf, CurrentBelief, TargetMemory, RequestOf;
  }

  /** The shock field is not disclosed. */
  lemma OverlayIgnoresShock(i: IState, shock: Option<ShockValidation>, staged: Option<Activation>, day: nat)
    ensures OverlayFor(i.(shock := shock), staged, day) == OverlayFor(i, staged, day)
    ensures TargetMemory(i.(shock := shock), staged) == TargetMemory(i, staged)
  {
    hide Lookup;
  }

  predicate IsEngineFault(f: Fault) {
    f != NoFault && f != AtEvidence
  }

  predicate StopsDeciding(f: Fault) {
    f in {AtContext, AtSelection, AtConsequence, AtLanguage, AtRecord}
  }

  /** One simulated day at a time, action first. */
  class SimulationEngine {
    const scenario: Scenario
    const oracles: Oracles
    const model: Gate2DeterministicModel
    var memory: HarnessMemoryBridge
    var state: SimState

    constructor (scenario: Scenario, oracles: Oracles, model: Gate2DeterministicModel, memory: HarnessMemoryBridge, state: SimState)
      ensures this.scenario == scenario && this.oracles == oracles && this.model == model && this.memory == memory && this.state == state
    {
      this.scenario := scenario;
      this.oracles := oracles;
      this.model := model;
      this.memory := memory;
      this.state := state;
    }

    /** Engine, model and bridge are one circuit, and no treatment is pending. */
    ghost predicate Wired()
      reads this, memory, memory.runtime
    {
      && memory == model.bridge && model.scenario == scenario && model.oracles == oracles && KeyedByAction(scenario)
      && memory.runtime.Valid() && memory.runtime.score == oracles.score && memory.runtime.stagedMemory == null
    }

    /** Everything up to the request: the context is retrieved and the day is planned. */
    method Plan(fault: Fault) returns (r: Option<(Event, Request, DecisionContext)>, ghost plan: Option<DayPlan>)
      requires Wired()
      modifies memory`latestEvent, memory`latestContext, memory`latestOverlay, memory.runtime
      ensures memory.runtime.Valid() && memory.runtime == old(memory.runtime) && memory.runtime.memory == old(memory.runtime.memory)
      ensures memory.runtime.stagedMemory != null ==> fresh(memory.runtime.stagedMemory.Repr())
      ensures plan == PlanDay(scenario, oracles, state, old(memory.runtime.State()))
      ensures plan.Some? && fault != AtContext ==> r.Some?
      ensures r.Some? ==> fault != AtContext
      ensures r.Some? && plan.Some? ==>
                && r == Some((plan.value.event, plan.value.request, plan.value.prepared.context))
                && model.IsPlanned(plan.value, plan.value.request)
                && memory.runtime.State() == old(memory.runtime.State()).(shock := plan.value.prepared.shock)
                && memory.runtime.Staged() == plan.value.prepared.staged
                && memory.latestEvent == Some(plan.value.event) && memory.latestContext == Some(plan.value.prepared.context)
      ensures r.Some? && plan.None? ==>
                ShownMemories(TargetMemory(memory.runtime.State(), memory.runtime.Staged()).store, r.value.1.retrievedIds).None?
    {
      hide PlanDay, EventFor, MenuOf, Prepare, OverlayFor, ShownMemories, SortedIds, GoalsOf, InputOf, CurrentBelief, TargetMemory;
      ghost var i := memory.runtime.State();
      plan := PlanDay(scenario, oracles, state, i);
      NoPlanWithout(scenario, oracles, state, i);
      var event := EventFor(scenario, state);
      if event.None? {
        return None, plan;
      }
      var e := event.value;
      var menu := MenuOf(scenario, e.actionIds);
      if menu.None? {
        return None, plan;
      }
      var goals, seed := SortedIds(GoalsOf(scenario, e.actionIds)), oracles.seedFor("memory-retrieval", e);
      var context := memory.ContextForAction(e, goals, seed);
      if context.None? || fault == AtContext {
        return None, plan;
      }
      ghost var p := Prepare(i, oracles.score, e, goals, seed).value;
      PlanBuilt(scenario, oracles, state, i, e, menu.value, p, memory.latestOverlay.value);
      OverlayIgnoresShock(i, p.shock, p.staged, e.day);
      assert memory.runtime.State() == i.(shock := p.shock);
      r := Some((e, RequestOf(scenario, e, menu.value, context.value), context.value));
    }

    /** From the model's choice to the applied consequence; nothing is said in public yet. */
    method Choose(fault: Fault, e: Event, request: Request, ghost plan: Option<DayPlan>, ghost p: DayPlan) returns (r: Option<Chosen>)
      requires memory == model.bridge && model.scenario == scenario && model.oracles == oracles && KeyedByAction(scenario)
      requires memory.runtime.Valid()
      requires plan.Some? ==> p == plan.value && model.IsPlanned(p, request) && p.event == e && p.request == request
      requires plan.None? ==> ShownMemories(TargetMemory(memory.runtime.State(), memory.runtime.Staged()).store, request.retrievedIds).None?
      modifies model`ledger, model`pending
      ensures r.Some? <==> plan.Some? && ChosenOf(scenario, oracles, p).Some? && fault !in {AtSelection, AtConsequence}
      ensures r.Some? ==>
                && r == ChosenOf(scenario, oracles, p)
                && var s, seed, prompt := r.value.selection, oracles.seedFor("action-selection", e), oracles.renderAction(p.input);
                   var key := ActionKey(scenario.modelConfigId, p.input, prompt, seed);
                   && model.ledger == ActionEntry(old(model.ledger), key, s)
                   && s.decisionId in model.pending
                   && model.pending[s.decisionId] == PendingTrace(p.request.requestId, p.input, p.selected, p.overlay, prompt, key, model.ledger)
    {
      hide ShownMemories, CommitAction, ApplyConsequence, TargetMemory, Gate2DeterministicModel.IsPlanned;
      var selection := model.SelectAction(request, oracles.seedFor("action-selection", e), p);
      if selection.None? || fault == AtSelection {
        return None;
      }
      var s := selection.value;
      var commitment := CommitAction(scenario, e, s);
      if commitment.None? || commitment.value.cost > scenario.dailyTotal {
        return None;
      }
      var application := ApplyConsequence(scenario, commitment.value);
      if application.None? || fault == AtConsequence {
        return None;
      }
      CommittedIsKnown(scenario, e, s);
      return Some(Chosen(scenario.actions[s.actionId], s, commitment.value, application.value));
    }

    /** From the model's choice to a checked record: commitment, debit and consequence come before the
        public language, and the day's memory is staged between them. */
    method Act(fault: Fault, e: Event, request: Request, context: DecisionContext, ghost plan: Option<DayPlan>)
      returns (r: Option<(StepRecord, PendingCommit)>)
      requires memory == model.bridge && model.scenario == scenario && model.oracles == oracles && KeyedByAction(scenario)
      requires memory.runtime.Valid()
      requires plan.Some? ==>
                 model.IsPlanned(plan.value, request) && plan.value.event == e && plan.value.request == request && plan.value.prepared.context == context
      requires plan.None? ==> ShownMemories(TargetMemory(memory.runtime.State(), memory.runtime.Staged()).store, request.retrievedIds).None?
      modifies model
      ensures model.traces != old(model.traces) ==>
                plan.Some? && ChosenOf(scenario, oracles, plan.value).Some? && fault !in {AtSelection, AtConsequence}
      ensures model.traces == old(model.traces) || (|model.traces| == |old(model.traces)| + 1 && model.traces[..|old(model.traces)|] == old(model.traces))
      ensures r.Some? ==> plan.Some? && ActDay(scenario, oracles, state, old(model.ledger), plan.value).Some?
      ensures plan.Some? && ActDay(scenario, oracles, state, old(model.ledger), plan.value).Some? ==>
                var acted := ActDay(scenario, oracles, state, old(model.ledger), plan.value).value;
                && (r.Some? <==> fault !in {AtSelection, AtConsequence, AtLanguage, AtRecord})
                && (r.Some? ==>
                      && r.value.0 == acted.record
                      && r.value.1 == StageSpec(TargetMemory(memory.runtime.State(), memory.runtime.Staged()).config, e, acted.action,
                                                acted.record.consequence, context)
                      && model.ledger == acted.ledger && model.traces == old(model.traces) + [TraceOf(plan.value, acted)])
    {
      hide StepRecordValid, SimValid, ShownMemories, AdvanceSim, StepRecordOf, StageSpec, TargetMemory,
        Gate2DeterministicModel.IsPlanned, Response, ChosenOf, ActDay, KeyedByAction;
      ghost var p := if plan.Some? then plan.value else AnyPlan(e, request, context);
      ActByChoice(scenario, oracles, state, model.ledger, p);
      var chosen := Choose(fault, e, request, plan, p);
      if chosen.None? {
        return None;
      }
      var (action, s, commitment, application) := (chosen.value.action, chosen.value.selection, chosen.value.commitment, chosen.value.application);
      var pending := memory.runtime.StageAfterConsequence(e, action, application, context);
      var response := model.GeneratePublicLanguage(request, s, commitment, oracles.seedFor("public-language", e));
      if response.None? || fault == AtLanguage {
        return None;
      }
      var record := StepRecordOf(scenario, oracles, state, e, request, s, action, commitment, application, response.value);
      if !StepRecordValid(record) || !SimValid(AdvanceSim(state, record)) || fault == AtRecord {
        return None;
      }
      RecordHoldsConsequence(scenario, oracles, state, e, request, s, action, commitment, application, response.value);
      return Some((record, pending));
    }

    /** Makes the day's memory durable, and then the record. */
    method Commit(fault: Fault, record: StepRecord, pending: PendingCommit) returns (ok: bool)
      requires memory.runtime.Valid()
      modifies this`state, memory.runtime.Repr()
      ensures memory == old(memory) && memory.runtime == old(memory.runtime) && memory.runtime.Valid()
      ensures memory.runtime.memory == old(memory.runtime.memory) || memory.runtime.memory == old(memory.runtime.stagedMemory)
      ensures memory.runtime.stagedMemory == null
      ensures var after := CommitDay(old(memory.runtime.State()), old(memory.runtime.Staged()), pending, record);
              && (ok <==> after.Some? && fault != AtCommit)
              && state == (if after.Some? then AdvanceSim(old(state), record) else old(state))
              && (after.Some? ==> memory.runtime.State() == after.value)
    {
      hide CommitDay, AdvanceSim;
      ok := memory.runtime.CommitAfterStep(pending, record);
      if ok {
        state := AdvanceSim(state, record);
        ok := fault != AtCommit;
      }
    }

    /** The day up to its commit: planned, acted, and its memory staged. */
    method Decide(fault: Fault) returns (r: Option<(StepRecord, PendingCommit)>, ghost plan: Option<DayPlan>)
      requires Wired() && fault != Midway
      modifies memory`latestEvent, memory`latestContext, memory`latestOverlay, memory.runtime, model
      ensures memory.runtime.Valid() && memory.runtime == old(memory.runtime) && memory.runtime.memory == old(memory.runtime.memory)
      ensures memory.runtime.stagedMemory != null ==> fresh(memory.runtime.stagedMemory.Repr())
      ensures |old(model.traces)| <= |model.traces| && model.traces[..|old(model.traces)|] == old(model.traces)
      ensures plan == PlanDay(scenario, oracles, state, old(memory.runtime.State()))
      ensures r.Some? <==> plan.Some? && ActDay(scenario, oracles, state, old(model.ledger), plan.value).Some? && !StopsDeciding(fault)
      ensures r.Some? ==>
                var i := old(memory.runtime.State());
                var acted := ActDay(scenario, oracles, state, old(model.ledger), plan.value).value;
                && r == Some((acted.record, PendingOf(i, plan.value, acted)))
                && memory.runtime.State() == i.(shock := plan.value.prepared.shock) && memory.runtime.Staged() == plan.value.prepared.staged
                && memory.latestEvent == Some(plan.value.event) && memory.latestContext == Some(plan.value.prepared.context)
                && model.ledger == acted.ledger && model.traces == old(model.traces) + [TraceOf(plan.value, acted)]
    {
      hide PlanDay, ActDay, ShownMemories, TargetMemory, StageSpec, TraceOf, Gate2DeterministicModel.IsPlanned;
      ghost var i := memory.runtime.State();
      var prepared;
      prepared, plan := Plan(fault);
      if prepared.None? {
        return None, plan;
      }
      var (e, request, context) := prepared.value;
      r := Act(fault, e, request, context, plan);
      if r.Some? {
        TargetIgnoresShock(i, plan.value.prepared.shock, plan.value.prepared.staged);
      }
    }

    /** Runs the next day. On success exactly the day's results are durable; on failure anything may have moved. */
    method Step(fault: Fault) returns (r: Option<StepRecord>)
      requires Wired() && fault != Midway
      modifies this`state, memory`latestEvent, memory`latestContext, memory`latestOverlay, memory.runtime.Repr(), model
      ensures memory == old(memory) && memory.runtime == old(memory.runtime) && memory.runtime.Valid()
      ensures fresh(memory.runtime.memory.Repr() - old(memory.runtime.memory.Repr()))
      ensures |old(model.traces)| <= |model.traces| && model.traces[..|old(model.traces)|] == old(model.traces)
      ensures var d := RunDay(scenario, oracles, old(state), old(memory.runtime.State()), old(model.ledger));
              && (r.Some? <==> d.Some? && !IsEngineFault(fault))
              && (r.Some? ==>
                    && r == Some(d.value.acted.record) && state == AdvanceSim(old(state), r.value)
                    && memory.runtime.State() == d.value.after && memory.runtime.stagedMemory == null
                    && model.ledger == d.value.acted.ledger && model.traces == old(model.traces) + [TraceOf(d.value.plan, d.value.acted)]
                    && memory.latestEvent == Some(d.value.plan.event) && memory.latestContext == Some(d.value.plan.prepared.context))
    {
      hide PlanDay, ActDay, CommitDay, PendingOf, AdvanceSim, TraceOf, KeyedByAction, InterventionRuntime.State, InterventionRuntime.Staged;
      var decided, plan := Decide(fault);
      if decided.None? {
        return None;
      }
      var (record, pending) := decided.value;
      var ok := Commit(fault, record, pending);
      return if ok then Some(record) else None;
    }
  }

  /** A plan for a request that no plan answers. */
  ghost function AnyPlan(e: Event, request: Request, context: DecisionContext): DayPlan {
    DayPlan(e, [], Prepared(None, None, context), Overlay(0, [], [], None), request, [],
            ModelInput(BaseRun("", 0, "", ""), request.requestId, "", 0, [], [], 0, [], [], None, [], []))
  }

  lemma CommittedIsKnown(scn: Scenario, e: Event, s: Selection)
    requires CommitAction(scn, e, s).Some?
    ensures s.actionId in scn.actions
  {
  }

  lemma RecordHoldsConsequence(scn: Scenario, o: Oracles, sim: SimState, e: Event, r: Request, s: Selection, action: Action, c: Commitment,
                               a: Application, response: string)
    ensures StepRecordOf(scn, o, sim, e, r, s, action, c, a, response).consequence == a
  {
  }

  lemma TargetIgnoresShock(i: IState, shock: Option<ShockValidation>, staged: Option<Activation>)
    ensures TargetMemory(i.(shock := shock), staged) == TargetMemory(i, staged)
  {
  }

  function Matching(traces: seq<Trace>, id: RequestId): seq<Trace> {
    if traces == [] then []
    else if traces[0].requestId == id then [traces[0]] + Matching(traces[1..], id)
    else Matching(traces[1..], id)
  }

  /** The trace at `k` is of the request, and no other is. */
  predicate IsOnlyTrace(traces: seq<Trace>, id: RequestId, k: int) {
    0 <= k < |traces| && traces[k].requestId == id && forall j | 0 <= j < |traces| && j != k :: traces[j].requestId != id
  }

  lemma {:induction false} NoMatch(traces: seq<Trace>, id: RequestId)
    ensures Matching(traces, id) == [] <==> forall j | 0 <= j < |traces| :: traces[j].requestId != id
  {
    if traces != [] {
      NoMatch(traces[1..], id);
      assert forall j | 0 < j < |traces| :: traces[1..][j - 1] == traces[j];
    }
  }

  lemma {:induction false} OnlyTraceMatches(traces: seq<Trace>, id: RequestId, k: int)
    requires IsOnlyTrace(traces, id, k)
    ensures Matching(traces, id) == [traces[k]]
  {
    var rest := traces[1..];
    assert forall j | 0 <= j < |rest| :: rest[j] == traces[j + 1];
    if k == 0 {
      NoMatch(rest, id);
    } else {
      OnlyTraceMatches(rest, id, k - 1);
    }
  }

  lemma {:induction false} OnlyMatchIsOnlyTrace(traces: seq<Trace>, id: RequestId) returns (k: nat)
    requires |Matching(traces, id)| == 1
    ensures IsOnlyTrace(traces, id, k)
  {
    var rest := traces[1..];
    assert forall j | 0 < j < |traces| :: rest[j - 1] == traces[j];
    if traces[0].requestId == id {
      NoMatch(rest, id);
      k := 0;
    } else {
      var earlier := OnlyMatchIsOnlyTrace(rest, id);
      k := earlier + 1;
    }
  }

  /** A new request has one trace, however many earlier traces there are or have been lost. */
  lemma NewTraceIsOnly(traces: seq<Trace>, t: Trace)
    requires forall earlier | earlier in traces :: earlier.requestId != t.requestId
    ensures IsOnlyTrace(traces + [t], t.requestId, |traces|)
  {
    forall j | 0 <= j < |traces| ensures (traces + [t])[j].requestId != t.requestId {
      assert traces[j] in traces;
    }
  }
}
