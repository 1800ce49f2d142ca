/** A running cell: a day either advances every ledger or leaves all of them as they were. */
module Cells {
  import opened Wrappers
  import opened Ordering
  import opened World
  import opened Episodes
  import opened Beliefs
  import opened Retrieval
  import opened MemoryRuntime
  import opened Interventions
  import opened Harness
  import opened Execution

  /** The model remembers earlier days only. */
  predicate TracesBefore(traces: seq<Trace>, day: nat) {
    forall t | t in traces :: t.requestId.day < day
  }

  lemma TraceIsOfTheDay(scn: Scenario, o: Oracles, sim: SimState, i: IState, ledger: Ledger)
    requires RunDay(scn, o, sim, i, ledger).Some?
    ensures var d := RunDay(scn, o, sim, i, ledger).value;
            && TraceOf(d.plan, d.acted).requestId == d.acted.record.request.requestId
            && d.acted.record.request.requestId.day == sim.nextDay
            && AdvanceSim(sim, d.acted.record).nextDay == sim.nextDay + 1
  {
    hide PlanDay, ActDay, CommitDay, PendingOf;
    DayMeans(scn, o, sim, i, ledger);
    RequestIsOfTheDay(scn, o, sim, i);
    RecordKeepsRequest(scn, o, sim, ledger, PlanDay(scn, o, sim, i).value);
  }

  lemma RequestIsOfTheDay(scn: Scenario, o: Oracles, sim: SimState, i: IState)
    requires PlanDay(scn, o, sim, i).Some?
    ensures PlanDay(scn, o, sim, i).value.request.requestId.day == PlanDay(scn, o, sim, i).value.event.day
  {
    hide MenuOf, OverlayFor, ShownMemories, InputOf, Prepare, TargetMemory, EventFor;
  }

  lemma RecordKeepsRequest(scn: Scenario, o: Oracles, sim: SimState, ledger: Ledger, plan: DayPlan)
    requires ActDay(scn, o, sim, ledger, plan).Some?
    ensures ActDay(scn, o, sim, ledger, plan).value.record.request == plan.request
  {
    hide StepRecordValid, SimValid, CommitAction, ApplyConsequence;
  }

  /** With earlier traces only, the day's trace is found by its request. */
  lemma TraceIsFound(traces: seq<Trace>, t: Trace, day: nat)
    requires TracesBefore(traces, day) && t.requestId.day == day
    ensures IsOnlyTrace(traces + [t], t.requestId, |traces|) && TracesBefore(traces + [t], day + 1)
  {
    NewTraceIsOnly(traces, t);
  }

  lemma NoDayNoCell(scn: Scenario, o: Oracles, cell: CellId, c: CellState)
    ensures RunDay(scn, o, c.sim, c.runtime, c.ledger).None? ==> StepCell(scn, o, cell, c).None?
  {
    hide RunDay, EvidenceAllowed, EvidenceOf, AdvanceSim, TraceOf, StepCell;
    CellByStages(scn, o, cell, c);
  }

  lemma CellIsSound(scn: Scenario, cell: CellId, c: CellState)
    requires CellOk(scn, cell, c)
    ensures IOk(c.runtime, c.sim.nextDay)
  {
    hide IOk, EvidenceLinked;
  }

  class CellExecution {
    const cell: CellId
    const scenario: Scenario
    const oracles: Oracles
    const bridge: HarnessMemoryBridge
    const model: Gate2DeterministicModel
    const engine: SimulationEngine
    var runtime: InterventionRuntime
    var evidence: seq<Evidence>

    /** The four ledgers. */
    function Value(): CellState
      reads this, engine, model, runtime, runtime.memory.Repr()
    {
      CellState(engine.state, runtime.State(), model.ledger, evidence)
    }

    ghost function Repr(): set<object>
      reads this, runtime
    {
      {this, engine, bridge, model} + runtime.Repr()
    }

    /** The parts belong together and nothing is pending. */
    ghost predicate Connected()
      reads this, engine, model, bridge, bridge.runtime, engine.memory, engine.memory.runtime
    {
      && engine.scenario == scenario && engine.oracles == oracles && engine.model == model && model.bridge == bridge
      && engine.memory == bridge && bridge.runtime == runtime && engine.Wired()
      && TracesBefore(model.traces, engine.state.nextDay)
    }

    ghost predicate Valid()
      reads this, engine, model, bridge, bridge.runtime, engine.memory, engine.memory.runtime, runtime, runtime.memory.Repr()
    {
      Connected() && CellOk(scenario, cell, Value())
    }

    constructor (cell: CellId, scenario: Scenario, oracles: Oracles, bridge: HarnessMemoryBridge, model: Gate2DeterministicModel,
                 engine: SimulationEngine, runtime: InterventionRuntime, evidence: seq<Evidence>)
      ensures this.cell == cell && this.scenario == scenario && this.oracles == oracles && this.bridge == bridge && this.model == model
      ensures this.engine == engine && this.runtime == runtime && this.evidence == evidence
    {
      this.cell := cell;
      this.scenario := scenario;
      this.oracles := oracles;
      this.bridge := bridge;
      this.model := model;
      this.engine := engine;
      this.runtime := runtime;
      this.evidence := evidence;
    }

    /** The evidence of the day just simulated; `None` is a check that raises. */
    method EvidenceForStep(record: StepRecord) returns (r: Option<Evidence>)
      requires runtime.Valid()
      ensures forall k | 0 <= k < |model.traces| && IsOnlyTrace(model.traces, record.request.requestId, k)
                && bridge.latestEvent.Some? && bridge.latestContext.Some? ::
                r == if EvidenceAllowed(bridge.latestEvent.value, model.traces[k], record, runtime.State())
                     then Some(EvidenceOf(cell, evidence, bridge.latestContext.value, model.traces[k], record, runtime.State())) else None
      ensures r.Some? ==>
                bridge.latestEvent.Some? && bridge.latestContext.Some? && exists k :: IsOnlyTrace(model.traces, record.request.requestId, k)
    {
      hide EvidenceAllowed, EvidenceOf, IsOnlyTrace;
      var trace := model.TraceForRequest(record.request.requestId);
      if trace.None? || bridge.latestContext.None? || bridge.latestEvent.None? {
        return None;
      }
      var after := runtime.State();
      if !EvidenceAllowed(bridge.latestEvent.value, trace.value, record, after) {
        return None;
      }
      return Some(EvidenceOf(cell, evidence, bridge.latestContext.value, trace.value, record, after));
    }

    /** Appends the evidence of the day just simulated, which completes the day. */
    method AppendEvidence(fault: Fault, record: StepRecord, ghost start: CellState) returns (ok: bool)
      requires runtime.Valid() && evidence == start.evidence && RunDay(scenario, oracles, start.sim, start.runtime, start.ledger).Some?
      requires var d := RunDay(scenario, oracles, start.sim, start.runtime, start.ledger).value;
               && record == d.acted.record && engine.state == AdvanceSim(start.sim, record)
               && runtime.State() == d.after && model.ledger == d.acted.ledger
               && bridge.latestEvent == Some(d.plan.event) && bridge.latestContext == Some(d.plan.prepared.context)
               && model.traces != [] && model.traces[|model.traces| - 1] == TraceOf(d.plan, d.acted)
               && IsOnlyTrace(model.traces, record.request.requestId, |model.traces| - 1)
      modifies this`evidence
      ensures ok <==> StepCell(scenario, oracles, cell, start).Some? && fault != AtEvidence
      ensures ok ==> Value() == StepCell(scenario, oracles, cell, start).value
    {
      hide EvidenceAllowed, EvidenceOf, IsOnlyTrace, TraceOf, RunDay, StepCell, AdvanceSim;
      CellByStages(scenario, oracles, cell, start);
      var item := EvidenceForStep(record);
      if item.None? || fault == AtEvidence {
        return false;
      }
      evidence := evidence + [item.value];
      return true;
    }

    /** Leaves a memory in any condition. */
    static method Scramble(m: MemoryRuntime)
      requires m.Valid()
      modifies m.Repr()
    {
      m.blockedIds, m.blockedTags := *, *;
      m.store.episodes, m.store.accesses, m.store.reframes := *, *, *;
      m.beliefs.versions := *;
      m.retrieval.records := *;
    }

    /** Leaves a runtime in any condition: with or without a staged clone, and with the live memory or a clone in place. */
    static method ScrambleRuntime(r: InterventionRuntime)
      requires r.Valid()
      modifies r, r.memory.Repr()
      ensures r.Valid() && fresh(r.memory.Repr() - old(r.memory.Repr()))
    {
      hide InitialMem, MemoryRuntime.State;
      var live := r.memory;
      Scramble(live);
      var clone := new MemoryRuntime(live.config, live.relationshipId, live.score);
      Scramble(clone);
      var record: InterventionRecord := *;
      r.active, r.shock, r.records, r.stagedMemory := *, *, *, null;
      var committed, staged: bool := *, *;
      if committed {
        r.memory := clone;
      } else if staged {
        r.stagedMemory, r.stagedActive, r.stagedRecord := clone, *, Some(record);
      }
    }

    /** What an exception midway may leave behind: any values in any ledger. Only earlier traces are never taken away. */
    method Disturb()
      requires Connected()
      modifies this`evidence, engine`state, bridge, model, runtime.Repr()
      ensures runtime == old(runtime) && bridge.runtime == runtime && runtime.Valid()
      ensures fresh(runtime.memory.Repr() - old(runtime.memory.Repr()))
      ensures |old(model.traces)| <= |model.traces| && model.traces[..|old(model.traces)|] == old(model.traces)
    {
      hide KeyedByAction, TracesBefore;
      ScrambleRuntime(runtime);
      bridge.latestEvent, bridge.latestContext, bridge.latestOverlay := *, *, *;
      var more: seq<Trace> := *;
      model.ledger, model.pending, model.traces := *, *, model.traces + more;
      engine.state := *;
      evidence := *;
    }

    /** The day without its safety net: simulated, then evidenced. */
    method Attempt(fault: Fault) returns (ok: bool)
      requires Connected() && fault != Midway
      modifies this`evidence, engine`state, bridge, model, runtime.Repr()
      ensures runtime == old(runtime) && bridge.runtime == runtime && runtime.Valid()
      ensures fresh(runtime.memory.Repr() - old(runtime.memory.Repr()))
      ensures |old(model.traces)| <= |model.traces| && model.traces[..|old(model.traces)|] == old(model.traces)
      ensures ok <==> StepCell(scenario, oracles, cell, old(Value())).Some? && fault == NoFault
      ensures ok ==> Connected() && Value() == StepCell(scenario, oracles, cell, old(Value())).value
    {
      hide RunDay, StepCell, EvidenceAllowed, EvidenceOf, AdvanceSim, TraceOf, IsOnlyTrace, TracesBefore, KeyedByAction, InterventionRuntime.State;
      ghost var start := Value();
      NoDayNoCell(scenario, oracles, cell, start);
      var record := engine.Step(fault);
      if record.None? {
        return false;
      }
      TraceIsOfTheDay(scenario, oracles, start.sim, start.runtime, start.ledger);
      ghost var d := RunDay(scenario, oracles, start.sim, start.runtime, start.ledger).value;
      TraceIsFound(old(model.traces), TraceOf(d.plan, d.acted), start.sim.nextDay);
      ok := AppendEvidence(fault, record.value, start);
    }

    /** The day, with an exception at any point. */
    method TryDay(fault: Fault) returns (ok: bool)
      requires Connected()
      modifies this`evidence, engine`state, bridge, model, runtime.Repr()
      ensures runtime == old(runtime) && bridge.runtime == runtime && runtime.Valid()
      ensures fresh(runtime.memory.Repr() - old(runtime.memory.Repr()))
      ensures |old(model.traces)| <= |model.traces| && model.traces[..|old(model.traces)|] == old(model.traces)
      ensures ok <==> StepCell(scenario, oracles, cell, old(Value())).Some? && fault == NoFault
      ensures ok ==> Connected() && Value() == StepCell(scenario, oracles, cell, old(Value())).value
    {
      hide StepCell, Connected, Value, InterventionRuntime.Valid;
      if fault == Midway {
        Disturb();
        ok := false;
      } else {
        ok := Attempt(fault);
      }
    }

    /** Puts every ledger back to what it was before the day. */
    method Rollback(snapshot: ICheckpoint, sim: SimState, ledger: Ledger, count: nat, before: seq<Evidence>)
      requires runtime.Valid() && count <= |model.traces| && RestoreI(snapshot, sim).Some?
      modifies this, engine, bridge, model, runtime
      ensures fresh(runtime) && fresh(runtime.memory.Repr()) && runtime.Valid() && runtime.stagedMemory == null && runtime.score == oracles.score
      ensures runtime.State() == RestoreI(snapshot, sim).value && bridge.runtime == runtime && engine.memory == bridge
      ensures engine.state == sim && model.ledger == ledger && model.traces == old(model.traces)[..count] && evidence == before
    {
      hide RestoreI;
      runtime.DropStaged();
      var restored := InterventionRuntime.Restore(snapshot, sim, oracles.score);
      runtime := restored.value;
      bridge.ReplaceRuntime(runtime);
      model.RestoreState(ledger, count);
      engine.memory := bridge;
      engine.state := sim;
      evidence := before;
    }

    /** One transaction: wherever the day fails, all four ledgers are as before, and the day can be tried again. */
    method Step(fault: Fault) returns (ok: bool)
      requires Valid()
      modifies Repr()
      ensures Valid() && forall o: object | o in Repr() && o !in old(Repr()) :: fresh(o)
      ensures ok <==> StepCell(scenario, oracles, cell, old(Value())).Some? && fault == NoFault
      ensures Value() == if ok then StepCell(scenario, oracles, cell, old(Value())).value else old(Value())
      ensures engine.state.nextDay == old(engine.state).nextDay + (if ok then 1 else 0)
    {
      hide StepCell, TracesBefore, KeyedByAction, RestoreI, CaptureI, IOk, InterventionRuntime.State, CellOk;
      ghost var start := Value();
      CellIsSound(scenario, cell, start);
      var sim, ledger, count, before := engine.state, model.ledger, |model.traces|, evidence;
      RuntimeRoundTrip(runtime.State(), sim);
      var snapshot := runtime.Snapshot(sim);
      ok := TryDay(fault);
      if ok {
        StepKeepsCellOk(scenario, oracles, cell, start);
      } else {
        Rollback(snapshot.value, sim, ledger, count, before);
      }
    }

    lemma ValidByDay()
      requires Valid()
      ensures 1 <= engine.state.nextDay <= COMPLETED_DAY
      ensures Harness.RunThrough(scenario, oracles, cell, Value(), engine.state.nextDay - 1) == Some(Value())
    {
      hide Connected;
      EvidenceByDay(scenario, cell, Value());
    }

    /** Any number of failed attempts, then one that is not disturbed, is the undisturbed day. */
    method StepAfterFailures(faults: seq<Fault>) returns (ok: bool)
      requires Valid() && NoFault !in faults
      modifies Repr()
      ensures Valid() && forall o: object | o in Repr() && o !in old(Repr()) :: fresh(o)
      ensures ok <==> StepCell(scenario, oracles, cell, old(Value())).Some?
      ensures Value() == if ok then StepCell(scenario, oracles, cell, old(Value())).value else old(Value())
    {
      hide StepCell, Valid, Repr, InterventionRuntime.State;
      for k := 0 to |faults|
        invariant Valid() && Value() == old(Value())
        invariant forall o: object | o in Repr() && o !in old(Repr()) :: fresh(o)
      {
        assert faults[k] in faults;
        var done := Step(faults[k]);
      }
      ok := Step(NoFault);
    }

    /** Runs through a day of the experiment; a day that fails keeps the days before it. */
    method RunThrough(day: nat) returns (ok: bool)
      requires Valid()
      modifies Repr()
      ensures Valid() && forall o: object | o in Repr() && o !in old(Repr()) :: fresh(o)
      ensures ok <==> old(engine.state).nextDay <= day + 1 <= COMPLETED_DAY && Harness.RunThrough(scenario, oracles, cell, old(Value()), day).Some?
      ensures ok ==> Value() == Harness.RunThrough(scenario, oracles, cell, old(Value()), day).value
      ensures !ok && old(engine.state).nextDay <= day + 1 ==>
                1 <= engine.state.nextDay <= day + 1 && Harness.RunThrough(scenario, oracles, cell, old(Value()), engine.state.nextDay - 1) == Some(Value())
    {
      hide StepCell, Valid, Repr, InterventionRuntime.State, Harness.RunThrough;
      ghost var start := Value();
      ValidByDay();
      if !(engine.state.nextDay <= day + 1 <= COMPLETED_DAY) {
        return false;
      }
      while engine.state.nextDay <= day
        invariant Valid()
        invariant forall o: object | o in Repr() && o !in old(Repr()) :: fresh(o)
        invariant start.sim.nextDay <= engine.state.nextDay <= day + 1
        invariant Harness.RunThrough(scenario, oracles, cell, start, day) == Harness.RunThrough(scenario, oracles, cell, Value(), day)
        invariant Harness.RunThrough(scenario, oracles, cell, start, engine.state.nextDay - 1) == Some(Value())
        decreases day + 1 - engine.state.nextDay
      {
        ghost var before := Value();
        DayOnTheWay(scenario, oracles, cell, before, day);
        ok := Step(NoFault);
        if !ok {
          return false;
        }
        OneMoreDay(scenario, oracles, cell, start, before);
      }
      RunIsOver(scenario, oracles, cell, Value(), day);
      return true;
    }

    /** Binds the ledgers of the last finished day. */
    method CaptureCheckpoint() returns (b: Option<Bundle>)
      requires Valid()
      modifies runtime
      ensures Valid() && Value() == old(Value()) && runtime.Repr() == old(runtime.Repr())
      ensures b == Capture(cell, Value())
    {
      hide SimValid, CaptureI, CellOk, KeyedByAction, TracesBefore;
      var count := |evidence|;
      if count == 0 || count != engine.state.nextDay - 1 || !SimValid(engine.state) {
        return None;
      }
      var intervention := runtime.Snapshot(engine.state);
      if intervention.None? {
        return None;
      }
      var pointer := Pointer(cell, count, engine.state.nextDay, engine.state, runtime.memory.State(), intervention.value, runtime.records,
                             model.ledger, count, evidence[count - 1]);
      return if PointerValid(pointer) then Some(Bundle(pointer, engine.state, intervention.value, evidence)) else None;
    }

    /** A fresh cell wired around a runtime; the model starts from the given ledger with no trace of earlier days. */
    static method Assemble(cell: CellId, scenario: Scenario, oracles: Oracles, runtime: InterventionRuntime, sim: SimState, ledger: Ledger,
                           evidence: seq<Evidence>) returns (c: CellExecution)
      requires runtime.Valid() && runtime.stagedMemory == null && runtime.score == oracles.score && KeyedByAction(scenario)
      ensures fresh(c) && fresh(c.engine) && fresh(c.bridge) && fresh(c.model) && c.runtime == runtime && c.Connected()
      ensures c.cell == cell && c.scenario == scenario && c.oracles == oracles
      ensures c.Value() == CellState(sim, runtime.State(), ledger, evidence)
    {
      hide KeyedByAction;
      var bridge := new HarnessMemoryBridge(runtime);
      var model := new Gate2DeterministicModel(scenario, oracles, bridge, ledger);
      var engine := new SimulationEngine(scenario, oracles, model, bridge, sim);
      c := new CellExecution(cell, scenario, oracles, bridge, model, engine, runtime, evidence);
    }

    static method NewRuntime(spec: Spec, score: Scoring, config: Config, relationshipId: string, instructions: seq<Directive>)
      returns (r: InterventionRuntime)
      ensures fresh(r.Repr()) && r.Valid() && r.stagedMemory == null && r.score == score
      ensures r.State() == InitialI(spec, InitialMem(config, relationshipId), instructions)
    {
      hide InitialMem, InitialI;
      var memory := new MemoryRuntime(config, relationshipId, score);
      r := new InterventionRuntime(spec, memory, instructions);
    }

    /** A new cell before its first day. */
    static method Start(cell: CellId, scenario: Scenario, oracles: Oracles, config: Config, relationshipId: string, instructions: seq<Directive>)
      returns (c: CellExecution)
      requires SpecValid(cell.spec) && Distinct(InstructionIds(instructions)) && KeyedByAction(scenario)
      ensures fresh(c) && fresh(c.Repr()) && c.Valid()
      ensures c.cell == cell && c.scenario == scenario && c.oracles == oracles
      ensures c.Value() == StartCell(scenario, cell, config, relationshipId, instructions)
    {
      hide KeyedByAction, SpecValid, Distinct, CellOk, InitialMem, InitialI, InitialSim, BaseRunOf, CellExecution.Connected, CellExecution.Value, InterventionRuntime.State,
        InterventionRuntime.Valid;
      var runtime := NewRuntime(cell.spec, oracles.score, config, relationshipId, instructions);
      c := Assemble(cell, scenario, oracles, runtime, InitialSim(scenario.header), Ledger.Start(BaseRunOf(scenario)), []);
      StartIsOk(scenario, cell, config, relationshipId, instructions);
    }

    /** A fresh cell from a checkpoint; every binding is checked, and the trace list starts empty. */
    static method RestoreCheckpoint(cell: CellId, scenario: Scenario, oracles: Oracles, b: Bundle) returns (c: CellExecution?)
      requires KeyedByAction(scenario)
      ensures c != null <==> Restore(scenario, cell, b).Some?
      ensures c != null ==>
                && fresh(c) && fresh(c.Repr()) && c.Connected()
                && c.cell == cell && c.scenario == scenario && c.oracles == oracles && c.Value() == Restore(scenario, cell, b).value
    {
      hide KeyedByAction, EvidenceLinked, ComponentsMatch, SimValid, RestoreI, CellExecution.Connected;
      if b.pointer.cell != cell || !PointerValid(b.pointer) || !SimValid(b.simulation)
         || !(forall k | 0 <= k < |b.evidence| :: EvidenceLinked(cell, b.evidence, k))
         || !ComponentsMatch(b) || b.simulation.header != scenario.header {
        return null;
      }
      var runtime := InterventionRuntime.Restore(b.intervention, b.simulation, oracles.score);
      if runtime.None? {
        return null;
      }
      c := Assemble(cell, scenario, oracles, runtime.value, b.simulation, b.pointer.ledger, b.evidence);
    }

    /** The whole experiment in one go. */
    static method RunCell(cell: CellId, scenario: Scenario, oracles: Oracles, config: Config, relationshipId: string, instructions: seq<Directive>)
      returns (c: CellExecution?)
      requires SpecValid(cell.spec) && Distinct(InstructionIds(instructions)) && KeyedByAction(scenario)
      ensures var whole := Harness.RunThrough(scenario, oracles, cell, StartCell(scenario, cell, config, relationshipId, instructions), LAST_DAY);
              (c != null <==> whole.Some?) && (c != null ==> c.Valid() && c.Value() == whole.value)
    {
      hide KeyedByAction, SpecValid, Distinct, CellOk, StartCell, Harness.RunThrough, CellExecution.Connected;
      c := Start(cell, scenario, oracles, config, relationshipId, instructions);
      StartsOnDayOne(scenario, cell, config, relationshipId, instructions);
      var ok := c.RunThrough(LAST_DAY);
      if !ok {
        return null;
      }
    }

    /** Paused after a day, captured, restored into fresh objects, and finished: the same cell, or no cell when
        the straight run has none. */
    static method RunCellResumed(cell: CellId, scenario: Scenario, oracles: Oracles, config: Config, relationshipId: string,
                                 instructions: seq<Directive>, pause: nat) returns (c: CellExecution?)
      requires SpecValid(cell.spec) && Distinct(InstructionIds(instructions)) && KeyedByAction(scenario) && 1 <= pause <= LAST_DAY
      ensures var whole := Harness.RunThrough(scenario, oracles, cell, StartCell(scenario, cell, config, relationshipId, instructions), LAST_DAY);
              (c != null <==> whole.Some?) && (c != null ==> c.Valid() && c.Value() == whole.value)
    {
      hide KeyedByAction, SpecValid, Distinct, CellOk, StartCell, Harness.RunThrough, Capture, Restore, CellExecution.Connected;
      ghost var start := StartCell(scenario, cell, config, relationshipId, instructions);
      var paused := Start(cell, scenario, oracles, config, relationshipId, instructions);
      StartsOnDayOne(scenario, cell, config, relationshipId, instructions);
      RunInTwoParts(scenario, oracles, cell, start, pause, LAST_DAY);
      var ok := paused.RunThrough(pause);
      if !ok {
        return null;
      }
      ResumeEqualsUninterrupted(scenario, oracles, cell, start, pause, LAST_DAY);
      RunKeepsCellOk(scenario, oracles, cell, start, pause);
      EvidenceByDay(scenario, cell, paused.Value());
      CompositeRoundTrip(scenario, cell, paused.Value());
      var bundle := paused.CaptureCheckpoint();
      c := RestoreCheckpoint(cell, scenario, oracles, bundle.value);
      ok := c.RunThrough(LAST_DAY);
      if !ok {
        return null;
      }
    }
  }

  lemma DayOnTheWay(scn: Scenario, o: Oracles, cell: CellId, c: CellState, day: nat)
    requires c.sim.nextDay <= day
    ensures StepCell(scn, o, cell, c).None? ==> RunThrough(scn, o, cell, c, day).None?
    ensures StepCell(scn, o, cell, c).Some? && StepCell(scn, o, cell, c).value.sim.nextDay == c.sim.nextDay + 1 ==>
              RunThrough(scn, o, cell, c, day) == RunThrough(scn, o, cell, StepCell(scn, o, cell, c).value, day)
  {
    hide StepCell;
  }

  lemma RunIsOver(scn: Scenario, o: Oracles, cell: CellId, c: CellState, day: nat)
    requires c.sim.nextDay == day + 1
    ensures RunThrough(scn, o, cell, c, day) == Some(c)
  {
  }

  /** A run through yesterday and one more day is a run through today. */
  lemma OneMoreDay(scn: Scenario, o: Oracles, cell: CellId, start: CellState, c: CellState)
    requires 1 <= c.sim.nextDay && start.sim.nextDay <= c.sim.nextDay
    requires RunThrough(scn, o, cell, start, c.sim.nextDay - 1) == Some(c)
    requires StepCell(scn, o, cell, c).Some? && StepCell(scn, o, cell, c).value.sim.nextDay == c.sim.nextDay + 1
    ensures RunThrough(scn, o, cell, start, c.sim.nextDay) == StepCell(scn, o, cell, c)
  {
    hide StepCell;
    RunInTwoParts(scn, o, cell, start, c.sim.nextDay - 1, c.sim.nextDay);
    var next := StepCell(scn, o, cell, c).value;
    assert RunThrough(scn, o, cell, next, c.sim.nextDay) == Some(next);
  }
}
