/** The memory of one trajectory: its episodes, beliefs, retrieval log and retrieval filters. */
module MemoryRuntime {
  import opened Wrappers
  import opened Ordering
  import opened World
  import opened Episodes
  import opened Beliefs
  import opened Retrieval

  datatype MemState = MemState(
    config: Config,
    relationshipId: string,
    store: Store,
    versions: seq<Belief>,
    records: seq<RetrievalRecord>,
    blockedIds: seq<string>,
    blockedTags: seq<string>)

  function InitialMem(config: Config, relationshipId: string): MemState {
    MemState(config, relationshipId, EMPTY_STORE, [InitialBelief(relationshipId)], [], [], [])
  }

  function CurrentBelief(s: MemState): Option<Belief> {
    Current(s.versions, BeliefIdOf(s.relationshipId))
  }

  // ----- Before the action -----

  datatype DecisionContext = DecisionContext(retrievedIds: seq<string>, beliefs: Option<BeliefView>, retrieval: RetrievalRecord)

  function TrueFacts(facts: seq<Fact>): seq<string> {
    if facts == [] then []
    else if facts[0].truth then [facts[0].proposition] + TrueFacts(facts[1..])
    else TrueFacts(facts[1..])
  }

  function Spaced(words: seq<string>): string {
    if words == [] then "" else if |words| == 1 then words[0] else words[0] + " " + Spaced(words[1..])
  }

  function QueryFor(s: MemState, e: Event, goalIds: seq<string>, seed: int): Query {
    Query(Spaced(TrueFacts(e.facts)), e.day, e.participants, goalIds, s.blockedIds, s.blockedTags, seed)
  }

  function ViewOfBelief(b: Belief): BeliefView {
    BeliefView(b.active, b.romantic, b.reciprocal, b.reliability, b.expected, b.confidence)
  }

  /** Ranking is pure; it fails on an invalid query or an invalid record. */
  function ContextSpec(s: MemState, score: Scoring, e: Event, goalIds: seq<string>, seed: int): Option<DecisionContext> {
    var q := QueryFor(s, e, goalIds, seed);
    if !QueryValid(q) || s.config.topK < 1 then None
    else
      var record := RankSpec(s.config, score, q, All(s.store), s.config.topK);
      if !RecordValid(record) then None
      else
        var belief := CurrentBelief(s);
        Some(DecisionContext(record.selectedIds, if belief.Some? then Some(ViewOfBelief(belief.value)) else None, record))
  }

  // ----- After the consequence -----

  datatype Draft = Draft(
    memoryId: string,
    event: Event,
    facts: seq<Fact>,
    interpretation: Option<Interpretation>,
    summary: string,
    outcome: Application,
    resourceCost: int,
    salience: real,
    goalIds: seq<string>,
    tags: seq<string>,
    partnerRelated: bool,
    retrievalEligible: bool,
    supports: bool,
    contradicts: bool)

  datatype PendingCommit = PendingCommit(day: nat, retrieval: RetrievalRecord, drafts: seq<Draft>)

  function FactsAmong(facts: seq<Fact>, ids: seq<string>): seq<Fact> {
    if facts == [] then []
    else if facts[0].factId in ids then [facts[0]] + FactsAmong(facts[1..], ids)
    else FactsAmong(facts[1..], ids)
  }

  /** The first reading that rests on the candidate's facts alone. */
  function ReadingFor(readings: seq<EventReading>, ids: seq<string>): Option<Interpretation> {
    if readings == [] then None
    else if IsSubset(readings[0].factIds, ids) then
      Some(Interpretation(readings[0].interpretationId, readings[0].proposition, readings[0].factIds, readings[0].ledgerSupported, 1))
    else ReadingFor(readings[1..], ids)
  }

  predicate HasEvidence(e: Event, ids: seq<string>, direction: Direction) {
    exists v | v in e.evidence :: v.direction == direction && exists f | f in v.factIds :: f in ids
  }

  function PhaseName(p: Phase): string {
    match p
    case Baseline => "baseline" case Formation => "formation" case RealityShock => "reality_shock" case Adaptation => "adaptation"
    case ControlPhase => "control"
  }

  function DraftOf(c: Config, e: Event, action: Action, outcome: Application, m: MemoryCandidate): Draft {
    Draft(m.memoryId, e, FactsAmong(e.facts, m.sourceFactIds), ReadingFor(e.readings, m.sourceFactIds), m.summary, outcome,
          outcome.commitment.cost, if m.partnerRelated then c.partnerSalience else c.otherSalience, action.goalIds,
          [e.formation, PhaseName(e.phase)] + (if m.partnerRelated then ["partner_related"] else []),
          m.partnerRelated, m.retrievalEligible,
          HasEvidence(e, m.sourceFactIds, Supports), HasEvidence(e, m.sourceFactIds, Contradicts))
  }

  function DraftsOf(c: Config, e: Event, action: Action, outcome: Application, ms: seq<MemoryCandidate>): seq<Draft> {
    if ms == [] then [] else [DraftOf(c, e, action, outcome, ms[0])] + DraftsOf(c, e, action, outcome, ms[1..])
  }

  /** Prepares the day's memory; nothing is durable yet. */
  function StageSpec(c: Config, e: Event, action: Action, outcome: Application, context: DecisionContext): PendingCommit {
    PendingCommit(e.day, context.retrieval, DraftsOf(c, e, action, outcome, e.candidates))
  }

  // ----- The commit -----

  function MemoryOf(d: Draft, source: StepRecord): Memory {
    Memory(d.memoryId, d.event.eventId, d.event.day, d.event.participants, d.facts, d.interpretation, d.summary, d.outcome, d.resourceCost,
           d.salience, 0, d.goalIds, d.tags, d.partnerRelated, d.retrievalEligible,
           Provenance(d.event.eventId, source, d.memoryId, d.event.formation))
  }

  /** Stores drafts until one fails its checks or clashes with a stored episode. */
  function StoreDrafts(s: Store, drafts: seq<Draft>, source: StepRecord): (bool, Store)
    decreases |drafts|
  {
    if drafts == [] then (true, s)
    else
      var m := MemoryOf(drafts[0], source);
      if !MemoryValid(m) then (false, s)
      else
        var (result, next) := AppendSpec(s, m);
        if !result.Appended? && !result.AlreadyThere? then (false, s)
        else StoreDrafts(next, drafts[1..], source)
  }

  function Supporting(drafts: seq<Draft>): seq<string> {
    if drafts == [] then [] else (if drafts[0].supports then [drafts[0].memoryId] else []) + Supporting(drafts[1..])
  }

  function Contradicting(drafts: seq<Draft>): seq<string> {
    if drafts == [] then [] else (if drafts[0].contradicts then [drafts[0].memoryId] else []) + Contradicting(drafts[1..])
  }

  /** Links the new evidence to the current belief. */
  function UpdateBeliefs(s: MemState, day: nat, supporting: seq<string>, contradicting: seq<string>): (bool, MemState) {
    if supporting == [] && contradicting == [] then (true, s)
    else if CurrentBelief(s).None? then (false, s)
    else
      var updated := UpdateEvidence(CurrentBelief(s).value, day, supporting, contradicting);
      if updated.None? then (false, s)
      else
        var (result, versions) := AddSpec(s.store.episodes, s.versions, updated.value);
        (result.Added? || result.Unchanged?, s.(versions := versions))
  }

  /** Retrieval log, then episodes, then beliefs; a failure leaves what came before it. */
  function CommitMem(s: MemState, p: PendingCommit, source: StepRecord): (bool, MemState) {
    var (result, store, records) := CommitSpec(s.config, s.store, s.records, p.retrieval);
    var logged := s.(store := store, records := records);
    if !result.Committed? then (false, logged)
    else
      var (stored, after) := StoreDrafts(store, p.drafts, source);
      if !stored then (false, logged.(store := after))
      else UpdateBeliefs(logged.(store := after), p.day, Supporting(p.drafts), Contradicting(p.drafts))
  }

  // ----- Checkpoints -----

  /** Every part is checked again when a checkpoint is captured and when it is read. */
  predicate CheckpointOk(s: MemState) {
    && CheckpointValid(s.store)
    && (forall b | b in s.versions :: BeliefValid(b))
    && (forall r | r in s.records :: r.id.configId == s.config.configId && RecordValid(r))
  }

  /** `None` is a checkpoint that is refused. */
  function RestoreMem(s: MemState): Option<MemState> {
    if !CheckpointOk(s) then None
    else
      var store := RestoreStore(s.store);
      if store.None? then None
      else
        var versions := RestoreBeliefs(store.value.episodes, s.versions);
        if versions.None? then None else Some(s.(store := store.value, versions := versions.value))
  }

  // ----- What holds of every reachable memory -----

  ghost predicate MemOk(s: MemState) {
    && StoreOk(s.store)
    && LedgerOk(s.store.episodes, s.versions)
    && forall r | r in s.records :: r.id.configId == s.config.configId && RecordValid(r)
  }

  lemma InitialMemOk(config: Config, relationshipId: string)
    ensures MemOk(InitialMem(config, relationshipId))
  {
    assert AddedAt([], [InitialBelief(relationshipId)], 0);
  }

  /** Restoring a reachable memory's checkpoint succeeds and gives the same memory. */
  lemma MemRoundTrip(s: MemState)
    requires MemOk(s)
    ensures CheckpointOk(s) && RestoreMem(s) == Some(s)
  {
    hide RecordValid, RestoreStore, RestoreBeliefs, MemoryValid, BeliefValid, AddedAt, ReframeFits, Find;
    StoreRoundTrip(s.store);
    BeliefsRoundTrip(s.store.episodes, s.versions);
  }

  lemma {:induction false} StoringKeepsStoreOk(s: Store, drafts: seq<Draft>, source: StepRecord)
    requires StoreOk(s)
    ensures StoreOk(StoreDrafts(s, drafts, source).1) && s.episodes <= StoreDrafts(s, drafts, source).1.episodes
    decreases |drafts|
  {
    hide StoreOk, MemoryValid, AppendSpec;
    if drafts != [] && MemoryValid(MemoryOf(drafts[0], source)) {
      AppendKeepsStoreOk(s, MemoryOf(drafts[0], source));
      StoringKeepsStoreOk(AppendSpec(s, MemoryOf(drafts[0], source)).1, drafts[1..], source);
    }
  }

  lemma {:induction false} LongerKeepsKnown(before: seq<Memory>, after: seq<Memory>)
    requires before <= after
    ensures KeepsKnown(before, after)
  {
    forall id | Find(before, id).Some? ensures Find(after, id).Some? {
      assert Find(before, id).value in after;
    }
  }

  lemma CurrentIsListed(versions: seq<Belief>, id: string)
    ensures Current(versions, id).Some? ==> Current(versions, id).value in versions
  {
  }

  lemma CommitKeepsMemOk(s: MemState, p: PendingCommit, source: StepRecord)
    requires MemOk(s) && RecordValid(p.retrieval) && p.day <= LAST_DAY
    ensures MemOk(CommitMem(s, p, source).1)
    ensures s.store.episodes <= CommitMem(s, p, source).1.store.episodes
  {
    hide RecordValid, StoreOk, LedgerOk, RecordSpec, FindRecord, StoreDrafts, Supporting, Contradicting, UpdateBeliefs;
    var (result, store, records) := CommitSpec(s.config, s.store, s.records, p.retrieval);
    RecordKeepsStoreOk(s.store, p.retrieval.id, p.retrieval.selectedIds, p.retrieval.id.query.day);
    if result.Committed? {
      var (stored, after) := StoreDrafts(store, p.drafts, source);
      StoringKeepsStoreOk(store, p.drafts, source);
      LongerKeepsKnown(store.episodes, after.episodes);
      MoreEpisodesKeepLedger(store.episodes, after.episodes, s.versions);
      if stored {
        UpdateKeepsMemOk(s.(store := after, records := records), p.day, Supporting(p.drafts), Contradicting(p.drafts));
      }
    }
  }

  lemma RefusedBeliefChangesNothing(s: MemState, day: nat, supporting: seq<string>, contradicting: seq<string>)
    requires !UpdateBeliefs(s, day, supporting, contradicting).0
    ensures UpdateBeliefs(s, day, supporting, contradicting).1 == s
  {
    hide UpdateEvidence, Current, CitesKnown;
  }

  /** The draft's memory is stored already, as it stands. */
  predicate IsStored(s: Store, d: Draft, source: StepRecord) {
    MemoryValid(MemoryOf(d, source)) && Find(s.episodes, d.memoryId) == Some(MemoryOf(d, source))
  }

  /** The draft fails its checks, or another memory has its identifier. */
  predicate IsRefused(s: Store, d: Draft, source: StepRecord) {
    || !MemoryValid(MemoryOf(d, source))
    || (Find(s.episodes, d.memoryId).Some? && Find(s.episodes, d.memoryId) != Some(MemoryOf(d, source)))
  }

  predicate IsPastRefusal(s: Store, drafts: seq<Draft>, source: StepRecord, i: nat) {
    exists j | 0 <= j <= i && j < |drafts| :: IsRefused(s, drafts[j], source)
  }

  /** Every draft before the first one refused is stored already. */
  predicate AddsNothing(s: Store, drafts: seq<Draft>, source: StepRecord) {
    forall i | 0 <= i < |drafts| :: IsStored(s, drafts[i], source) || IsPastRefusal(s, drafts, source, i)
  }

  lemma {:induction false} StoringOnlyExtends(s: Store, drafts: seq<Draft>, source: StepRecord)
    ensures |s.episodes| <= |StoreDrafts(s, drafts, source).1.episodes|
    decreases |drafts|
  {
    hide MemoryValid, MemoryOf;
    if drafts != [] {
      StoringOnlyExtends(AppendSpec(s, MemoryOf(drafts[0], source)).1, drafts[1..], source);
    }
  }

  lemma AddsNothingUnfolds(s: Store, drafts: seq<Draft>, source: StepRecord)
    requires drafts != []
    ensures AddsNothing(s, drafts, source) <==>
            IsRefused(s, drafts[0], source) || (IsStored(s, drafts[0], source) && AddsNothing(s, drafts[1..], source))
  {
    hide IsStored, IsRefused;
    var rest := drafts[1..];
    if IsRefused(s, drafts[0], source) {
      forall i | 0 <= i < |drafts| ensures IsPastRefusal(s, drafts, source, i) {
      }
    } else {
      forall i | 0 <= i < |rest| ensures IsPastRefusal(s, rest, source, i) <==> IsPastRefusal(s, drafts, source, i + 1) {
        if IsPastRefusal(s, rest, source, i) {
          var j :| 0 <= j <= i && j < |rest| && IsRefused(s, rest[j], source);
          assert drafts[j + 1] == rest[j];
        }
        if IsPastRefusal(s, drafts, source, i + 1) {
          var j :| 0 <= j <= i + 1 && j < |drafts| && IsRefused(s, drafts[j], source);
          assert rest[j - 1] == drafts[j];
        }
      }
      assert !IsPastRefusal(s, drafts, source, 0);
      if AddsNothing(s, drafts, source) {
        forall i | 0 <= i < |rest| ensures IsStored(s, rest[i], source) || IsPastRefusal(s, rest, source, i) {
          assert rest[i] == drafts[i + 1];
        }
      }
    }
  }

  /** Storing drafts changes nothing exactly when they add nothing. */
  lemma {:induction false} NothingStoredIff(s: Store, drafts: seq<Draft>, source: StepRecord)
    ensures StoreDrafts(s, drafts, source).1 == s <==> AddsNothing(s, drafts, source)
    decreases |drafts|
  {
    hide MemoryValid, AddsNothing;
    if drafts == [] {
      NoDraftsAddNothing(s, source);
    } else {
      var d := drafts[0];
      AddsNothingUnfolds(s, drafts, source);
      if IsStored(s, d, source) {
        NothingStoredIff(s, drafts[1..], source);
      } else if !IsRefused(s, d, source) {
        StoringOnlyExtends(AppendSpec(s, MemoryOf(d, source)).1, drafts[1..], source);
      }
    }
  }

  lemma NoDraftsAddNothing(s: Store, source: StepRecord)
    ensures AddsNothing(s, [], source)
  {
  }

  /** Exactly when a failed commit leaves the memory as it was: a retrieval under another configuration, or one whose
      identifier is already logged and whose drafts, as far as the first one refused, are all stored already. A failed commit
      of a new retrieval is half written. */
  lemma FailedCommitUnchangedIff(s: MemState, p: PendingCommit, source: StepRecord)
    requires !CommitMem(s, p, source).0
    ensures CommitMem(s, p, source).1 == s <==>
            || p.retrieval.id.configId != s.config.configId
            || (&& FindRecord(s.records, p.retrieval.id).Some?
                && (FindRecord(s.records, p.retrieval.id) != Some(p.retrieval) || AddsNothing(s.store, p.drafts, source)))
  {
    hide RecordSpec, FindRecord, StoreDrafts, UpdateBeliefs, Supporting, Contradicting, AddsNothing;
    NothingStoredIff(s.store, p.drafts, source);
    var (result, store, records) := CommitSpec(s.config, s.store, s.records, p.retrieval);
    if result.Committed? && StoreDrafts(store, p.drafts, source).0 {
      var after := StoreDrafts(store, p.drafts, source).1;
      RefusedBeliefChangesNothing(s.(store := after, records := records), p.day, Supporting(p.drafts), Contradicting(p.drafts));
    }
  }

  /** An event whose one fact both supports and contradicts the relationship. */
  function AmbiguousEvent(formation: string): Event {
    Event("e", "g", 1, Baseline, formation, ["source"], ["p"], [Fact("f", "it happened", true)], [],
          [RelationshipEvidence("for", ["f"], Supports), RelationshipEvidence("against", ["f"], Contradicts)],
          [MemoryCandidate("m", ["f"], "a day", true, true)], ["act"], ["consequence"])
  }

  lemma AmbiguousDraft(config: Config, formation: string, action: Action, outcome: Application, source: StepRecord)
    requires formation != "baseline" && formation != "partner_related" && Distinct(action.goalIds)
    ensures var e := AmbiguousEvent(formation);
            var d := DraftOf(config, e, action, outcome, e.candidates[0]);
            MemoryValid(MemoryOf(d, source)) && d.memoryId == "m" && d.supports && d.contradicts && MemoryOf(d, source).retrievalCount == 0
  {
    var e := AmbiguousEvent(formation);
    var ids := e.candidates[0].sourceFactIds;
    assert e.facts[1..] == [] && "f" in ids;
    assert FactsAmong(e.facts, ids) == e.facts;
    assert e.evidence[0] in e.evidence && e.evidence[1] in e.evidence && "f" in e.evidence[0].factIds && "f" in e.evidence[1].factIds;
    assert HasEvidence(e, ids, Supports) && HasEvidence(e, ids, Contradicts);
    var m := MemoryOf(DraftOf(config, e, action, outcome, e.candidates[0]), source);
    assert m.tags == [formation, "baseline", "partner_related"];
    assert |"baseline"| == 8 && |"partner_related"| == 15;
    assert m.interpretation == None;
  }

  lemma ClashingEvidence(b: Belief, day: nat, id: string)
    ensures UpdateEvidence(b, day, [id], [id]).None?
  {
    SortedIdsCorrect(b.supporting + [id]);
    SortedIdsCorrect(b.contradicting + [id]);
    assert id in b.supporting + [id] && id in b.contradicting + [id];
    assert id in SortedIds(b.supporting + [id]) && id in SortedIds(b.contradicting + [id]);
  }

  /** On a new memory the commit of that event's day fails, and leaves the retrieval logged and the episode stored. */
  lemma HalfWrittenExample(config: Config, relationshipId: string, formation: string, action: Action, outcome: Application,
                           source: StepRecord, query: Query)
    requires formation != "baseline" && formation != "partner_related" && Distinct(action.goalIds)
    ensures var s, e := InitialMem(config, relationshipId), AmbiguousEvent(formation);
            var retrieval := RetrievalRecord(RetrievalId(query, config.configId, config.policy, 1, []), [], []);
            var (ok, after) := CommitMem(s, StageSpec(config, e, action, outcome, DecisionContext([], None, retrieval)), source);
            && !ok && after.records == [retrieval] && |after.store.episodes| == 1 && after.store.episodes[0].memoryId == "m"
            && after.versions == s.versions
  {
    hide DraftOf, MemoryOf, MemoryValid, UpdateEvidence, BeliefIdOf;
    var s, e := InitialMem(config, relationshipId), AmbiguousEvent(formation);
    var retrieval := RetrievalRecord(RetrievalId(query, config.configId, config.policy, 1, []), [], []);
    var p := StageSpec(config, e, action, outcome, DecisionContext([], None, retrieval));
    var d := DraftOf(config, e, action, outcome, e.candidates[0]);
    AmbiguousDraft(config, formation, action, outcome, source);
    DraftsOfOne(config, e, action, outcome, e.candidates[0]);
    assert e.candidates == [e.candidates[0]];
    DraftKeepsId(d, source);
    StoringOne(d, source);
    EvidenceOfOne(d);
    ClashingEvidence(InitialBelief(relationshipId), p.day, "m");
  }

  lemma DraftsOfOne(config: Config, e: Event, action: Action, outcome: Application, m: MemoryCandidate)
    ensures DraftsOf(config, e, action, outcome, [m]) == [DraftOf(config, e, action, outcome, m)]
  {
    hide DraftOf;
    assert [m][1..] == [];
  }

  lemma StoringOne(d: Draft, source: StepRecord)
    requires MemoryValid(MemoryOf(d, source)) && MemoryOf(d, source).retrievalCount == 0
    ensures StoreDrafts(EMPTY_STORE, [d], source) == (true, Store([MemoryOf(d, source)], [], []))
  {
    hide MemoryValid, MemoryOf;
    assert [d][1..] == [];
    assert [] + [MemoryOf(d, source)] == [MemoryOf(d, source)];
  }

  lemma EvidenceOfOne(d: Draft)
    requires d.supports && d.contradicts
    ensures Supporting([d]) == [d.memoryId] && Contradicting([d]) == [d.memoryId]
  {
    assert [d][1..] == [];
  }

  lemma DraftKeepsId(d: Draft, source: StepRecord)
    ensures MemoryOf(d, source).memoryId == d.memoryId
  {
  }

  lemma UpdateKeepsMemOk(s: MemState, day: nat, supporting: seq<string>, contradicting: seq<string>)
    requires MemOk(s) && day <= LAST_DAY
    ensures MemOk(UpdateBeliefs(s, day, supporting, contradicting).1)
    ensures UpdateBeliefs(s, day, supporting, contradicting).1.store == s.store
  {
    hide RecordValid, StoreOk, UpdateEvidence, AddSpec, AddedAt, BeliefValid, Current;
    if CurrentBelief(s).Some? {
      CurrentIsListed(s.versions, BeliefIdOf(s.relationshipId));
      var updated := UpdateEvidence(CurrentBelief(s).value, day, supporting, contradicting);
      if updated.Some? {
        UpdateIsValid(CurrentBelief(s).value, day, supporting, contradicting);
        AddKeepsLedger(s.store.episodes, s.versions, updated.value);
      }
    }
  }

  /** Filters are the only part of a memory that is ever replaced. */
  lemma FiltersKeepMemOk(s: MemState, blockedIds: seq<string>, blockedTags: seq<string>)
    requires MemOk(s)
    ensures MemOk(s.(blockedIds := blockedIds, blockedTags := blockedTags))
  {
    hide StoreOk, LedgerOk, RecordValid;
  }

  lemma StoreViewsDistinct(s: Store)
    requires StoreOk(s)
    ensures DistinctMemories(All(s))
  {
    hide MemoryValid, ReframeFits, View;
    forall i, j | 0 <= i < j < |All(s)| ensures All(s)[i].memoryId != All(s)[j].memoryId {
      ViewKeepsId(s, s.episodes[i]);
      ViewKeepsId(s, s.episodes[j]);
    }
  }

  lemma ViewKeepsId(s: Store, raw: Memory)
    ensures View(s, raw).memoryId == raw.memoryId
  {
  }

  /** On a reachable memory a valid query is always answered. */
  lemma ContextNeverRefused(s: MemState, score: Scoring, e: Event, goalIds: seq<string>, seed: int)
    requires MemOk(s) && QueryValid(QueryFor(s, e, goalIds, seed)) && s.config.topK >= 1
    ensures ContextSpec(s, score, e, goalIds, seed).Some?
    ensures RecordValid(ContextSpec(s, score, e, goalIds, seed).value.retrieval)
  {
    hide RecordValid, RankSpec, All, StoreOk, LedgerOk, QueryValid, DistinctMemories;
    StoreViewsDistinct(s.store);
    RankMeetsSpecification(s.config, score, QueryFor(s, e, goalIds, seed), All(s.store), s.config.topK);
  }

  lemma {:induction false} EvidenceSoFar(drafts: seq<Draft>, i: nat)
    requires i < |drafts|
    ensures Supporting(drafts[..i + 1]) == Supporting(drafts[..i]) + (if drafts[i].supports then [drafts[i].memoryId] else [])
    ensures Contradicting(drafts[..i + 1]) == Contradicting(drafts[..i]) + (if drafts[i].contradicts then [drafts[i].memoryId] else [])
  {
    if i > 0 {
      EvidenceSoFar(drafts[1..], i - 1);
      assert drafts[..i + 1][1..] == drafts[1..][..i] && drafts[..i][1..] == drafts[1..][..i - 1];
    }
  }

  lemma {:induction false} DraftsSoFar(c: Config, e: Event, action: Action, outcome: Application, ms: seq<MemoryCandidate>, i: nat)
    requires i < |ms|
    ensures DraftsOf(c, e, action, outcome, ms[..i + 1]) == DraftsOf(c, e, action, outcome, ms[..i]) + [DraftOf(c, e, action, outcome, ms[i])]
  {
    hide DraftOf;
    if i > 0 {
      DraftsSoFar(c, e, action, outcome, ms[1..], i - 1);
      assert ms[..i + 1][1..] == ms[1..][..i] && ms[..i][1..] == ms[1..][..i - 1];
    }
  }

  lemma OnlyAppendingChanges(s: Store, m: Memory)
    ensures !AppendSpec(s, m).0.Appended? ==> AppendSpec(s, m).1 == s
  {
  }

  class MemoryRuntime {
    const config: Config
    const relationshipId: string
    const score: Scoring
    const store: EpisodeStore
    const beliefs: BeliefLedger
    const retrieval: RetrievalEngine
    var blockedIds: seq<string>
    var blockedTags: seq<string>

    /** The ledger and the engine work on this runtime's own store. */
    ghost predicate Valid() {
      beliefs.store == store && retrieval.store == store && retrieval.config == config && retrieval.score == score
    }

    ghost function Repr(): set<object> {
      {this, store, beliefs, retrieval}
    }

    function State(): MemState
      reads this, store, beliefs, retrieval
    {
      MemState(config, relationshipId, store.State(), beliefs.versions, retrieval.records, blockedIds, blockedTags)
    }

    constructor (config: Config, relationshipId: string, score: Scoring)
      ensures Valid() && fresh(Repr()) && this.score == score
      ensures State() == InitialMem(config, relationshipId)
    {
      this.config := config;
      this.relationshipId := relationshipId;
      this.score := score;
      var store := new EpisodeStore();
      this.store := store;
      var ledger := new BeliefLedger(store);
      var _ := ledger.Append(InitialBelief(relationshipId));
      beliefs := ledger;
      retrieval := new RetrievalEngine(store, config, score, []);
      blockedIds, blockedTags := [], [];
    }

    constructor Assemble(config: Config, relationshipId: string, score: Scoring, store: EpisodeStore, beliefs: BeliefLedger,
                         retrieval: RetrievalEngine, blockedIds: seq<string>, blockedTags: seq<string>)
      ensures this.config == config && this.relationshipId == relationshipId && this.score == score
      ensures this.store == store && this.beliefs == beliefs && this.retrieval == retrieval
      ensures this.blockedIds == blockedIds && this.blockedTags == blockedTags
    {
      this.config := config;
      this.relationshipId := relationshipId;
      this.score := score;
      this.store := store;
      this.beliefs := beliefs;
      this.retrieval := retrieval;
      this.blockedIds := blockedIds;
      this.blockedTags := blockedTags;
    }

    /** Changes the retrieval filter only; stored episodes stay. */
    method SetBlockedIds(ids: seq<string>)
      modifies this`blockedIds
      ensures State() == old(State()).(blockedIds := SortedIds(ids))
    {
      blockedIds := SortedIds(ids);
    }

    method SetBlockedTags(tags: seq<string>)
      modifies this`blockedTags
      ensures State() == old(State()).(blockedTags := SortedIds(tags))
    {
      blockedTags := SortedIds(tags);
    }

    method ContextForAction(e: Event, goalIds: seq<string>, seed: int) returns (r: Option<DecisionContext>)
      requires Valid()
      ensures r == ContextSpec(State(), score, e, goalIds, seed)
    {
      hide RankSpec, All, RecordValid, QueryValid, Spaced, TrueFacts, Current;
      var q := QueryFor(State(), e, goalIds, seed);
      if !QueryValid(q) || config.topK < 1 {
        return None;
      }
      var record := retrieval.Rank(q, None);
      if record.None? {
        return None;
      }
      var belief := Current(beliefs.versions, BeliefIdOf(relationshipId));
      return Some(DecisionContext(record.value.selectedIds, if belief.Some? then Some(ViewOfBelief(belief.value)) else None, record.value));
    }

    /** Drafts the day's episodes; makes no durable change. */
    method StageAfterConsequence(e: Event, action: Action, outcome: Application, context: DecisionContext) returns (p: PendingCommit)
      ensures p == StageSpec(config, e, action, outcome, context)
    {
      hide DraftOf;
      var drafts := [];
      for i := 0 to |e.candidates|
        invariant drafts == DraftsOf(config, e, action, outcome, e.candidates[..i])
      {
        DraftsSoFar(config, e, action, outcome, e.candidates, i);
        drafts := drafts + [DraftOf(config, e, action, outcome, e.candidates[i])];
      }
      assert e.candidates[..|e.candidates|] == e.candidates;
      return PendingCommit(e.day, context.retrieval, drafts);
    }

    method CommitAfterStep(p: PendingCommit, source: StepRecord) returns (ok: bool)
      requires Valid()
      modifies store, beliefs, retrieval
      ensures (ok, State()) == CommitMem(old(State()), p, source)
    {
      hide CommitSpec, AppendSpec, MemoryValid, UpdateEvidence, AddSpec, Current, MemoryOf;
      var result := retrieval.Commit(p.retrieval);
      if !result.Committed? {
        return false;
      }
      ghost var logged := State();
      var supporting, contradicting := [], [];
      for i := 0 to |p.drafts|
        invariant store.State() == State().store && State() == logged.(store := State().store)
        invariant StoreDrafts(logged.store, p.drafts, source) == StoreDrafts(store.State(), p.drafts[i..], source)
        invariant supporting == Supporting(p.drafts[..i]) && contradicting == Contradicting(p.drafts[..i])
      {
        var d := p.drafts[i];
        EvidenceSoFar(p.drafts, i);
        assert p.drafts[i..][1..] == p.drafts[i + 1..];
        var m := MemoryOf(d, source);
        if !MemoryValid(m) {
          return false;
        }
        OnlyAppendingChanges(store.State(), m);
        var stored := store.Append(m);
        if !stored.Appended? && !stored.AlreadyThere? {
          return false;
        }
        if d.supports {
          supporting := supporting + [d.memoryId];
        }
        if d.contradicts {
          contradicting := contradicting + [d.memoryId];
        }
      }
      assert p.drafts[..|p.drafts|] == p.drafts;
      if supporting != [] || contradicting != [] {
        var current := Current(beliefs.versions, BeliefIdOf(relationshipId));
        if current.None? {
          return false;
        }
        var updated := UpdateEvidence(current.value, p.day, supporting, contradicting);
        if updated.None? {
          return false;
        }
        var added := beliefs.Append(updated.value);
        return added.Added? || added.Unchanged?;
      }
      return true;
    }

    /** Replays a checkpoint through the live checks. */
    static method Restore(checkpoint: MemState, score: Scoring) returns (r: Option<MemoryRuntime>)
      ensures r.Some? <==> RestoreMem(checkpoint).Some?
      ensures r.Some? ==> r.value.Valid() && fresh(r.value.Repr()) && r.value.score == score && r.value.State() == RestoreMem(checkpoint).value
    {
      hide CheckpointOk, RestoreStore, RestoreBeliefs;
      if !CheckpointOk(checkpoint) {
        return None;
      }
      var storeOk, store := EpisodeStore.Restore(checkpoint.store);
      if !storeOk {
        return None;
      }
      var beliefsOk, beliefs := BeliefLedger.Restore(store, checkpoint.versions);
      if !beliefsOk {
        return None;
      }
      var retrieval := new RetrievalEngine(store, checkpoint.config, score, checkpoint.records);
      var runtime := new MemoryRuntime.Assemble(checkpoint.config, checkpoint.relationshipId, score, store, beliefs, retrieval,
                                                checkpoint.blockedIds, checkpoint.blockedTags);
      return Some(runtime);
    }
  }
}
