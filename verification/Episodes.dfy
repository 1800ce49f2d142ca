/** The append-only store of episodic memories. */
module Episodes {
  import opened Wrappers
  import opened Ordering
  import opened World

  datatype Interpretation =
    Interpretation(interpretationId: string, proposition: string, factIds: seq<string>, ledgerSupported: bool, revision: nat)

  datatype Provenance = Provenance(sourceEventId: string, sourceRecord: StepRecord, candidateId: string, formation: string)

  datatype Memory = Memory(
    memoryId: string,
    sourceEventId: string,
    day: nat,
    participants: seq<string>,
    facts: seq<Fact>,
    interpretation: Option<Interpretation>,
    summary: string,
    outcome: Application,
    resourceCost: int,
    salience: real,
    retrievalCount: nat,
    goalIds: seq<string>,
    tags: seq<string>,
    partnerRelated: bool,
    retrievalEligible: bool,
    provenance: Provenance)

  /** The checks an episode passes when it is built or read back. */
  predicate MemoryValid(m: Memory) {
    && Distinct(m.participants) && Distinct(FactIds(m.facts)) && Distinct(m.goalIds) && Distinct(m.tags)
    && m.facts != [] && m.participants != [] && 1 <= m.day <= LAST_DAY
    && m.sourceEventId == m.provenance.sourceEventId
    && (m.interpretation.Some? ==> IsSubset(m.interpretation.value.factIds, FactIds(m.facts)))
  }

  datatype Query = Query(
    text: string,
    day: nat,
    participants: seq<string>,
    goalIds: seq<string>,
    blockedIds: seq<string>,
    blockedTags: seq<string>,
    seed: int)

  /** The identifier of a retrieval, as the values it is the digest of. */
  datatype RetrievalId = RetrievalId(query: Query, configId: string, policy: string, topK: nat, candidateIds: seq<string>)

  /** One access; its identifier is the digest of all three fields. */
  datatype Access = Access(retrieval: RetrievalId, memoryId: string, day: nat)

  /** One reframing; its identifier is the digest of all five fields. */
  datatype ReframeEvent =
    ReframeEvent(memoryId: string, priorId: string, interpretation: Interpretation, interventionId: string, reason: string)

  datatype Store = Store(episodes: seq<Memory>, accesses: seq<Access>, reframes: seq<ReframeEvent>)

  const EMPTY_STORE: Store := Store([], [], [])

  // ----- Views -----

  function Find(episodes: seq<Memory>, id: string): (r: Option<Memory>)
    ensures r.Some? ==> r.value in episodes && r.value.memoryId == id
    ensures r.None? ==> forall m | m in episodes :: m.memoryId != id
  {
    if episodes == [] then None
    else
      assert episodes == [episodes[0]] + episodes[1..];
      if episodes[0].memoryId == id then Some(episodes[0]) else Find(episodes[1..], id)
  }

  /** The interpretation in force: the last reframing of the episode, or the one it was stored with. */
  function Latest(initial: Option<Interpretation>, reframes: seq<ReframeEvent>, id: string): Option<Interpretation> {
    if reframes == [] then initial
    else if reframes[|reframes| - 1].memoryId == id then Some(reframes[|reframes| - 1].interpretation)
    else Latest(initial, reframes[..|reframes| - 1], id)
  }

  function AccessCount(accesses: seq<Access>, id: string): nat {
    if accesses == [] then 0
    else AccessCount(accesses[..|accesses| - 1], id) + (if accesses[|accesses| - 1].memoryId == id then 1 else 0)
  }

  function ReframeCount(reframes: seq<ReframeEvent>, id: string): nat {
    if reframes == [] then 0
    else ReframeCount(reframes[..|reframes| - 1], id) + (if reframes[|reframes| - 1].memoryId == id then 1 else 0)
  }

  function View(s: Store, raw: Memory): Memory {
    raw.(interpretation := Latest(raw.interpretation, s.reframes, raw.memoryId), retrievalCount := AccessCount(s.accesses, raw.memoryId))
  }

  function Get(s: Store, id: string): Option<Memory> {
    var raw := Find(s.episodes, id);
    if raw.None? then None else Some(View(s, raw.value))
  }

  function ViewAll(s: Store, episodes: seq<Memory>): (r: seq<Memory>)
    ensures |r| == |episodes| && forall i | 0 <= i < |r| :: r[i] == View(s, episodes[i])
  {
    if episodes == [] then [] else [View(s, episodes[0])] + ViewAll(s, episodes[1..])
  }

  function All(s: Store): seq<Memory> {
    ViewAll(s, s.episodes)
  }

  // ----- Operations -----

  datatype AppendResult = Appended | AlreadyThere | DifferentEvidence | HasRetrievals

  function AppendSpec(s: Store, m: Memory): (AppendResult, Store) {
    var existing := Find(s.episodes, m.memoryId);
    if existing.Some? then (if existing.value == m then AlreadyThere else DifferentEvidence, s)
    else if m.retrievalCount != 0 then (HasRetrievals, s)
    else (Appended, s.(episodes := s.episodes + [m]))
  }

  /** Accesses are recorded one by one; an unknown episode stops the recording where it stands. */
  function RecordSpec(s: Store, retrieval: RetrievalId, ids: seq<string>, day: nat): (bool, Store)
    decreases |ids|
  {
    if ids == [] then (true, s)
    else if Find(s.episodes, ids[0]).None? then (false, s)
    else
      var access := Access(retrieval, ids[0], day);
      RecordSpec(if access in s.accesses then s else s.(accesses := s.accesses + [access]), retrieval, ids[1..], day)
  }

  datatype ReframeResult = Reframed(event: ReframeEvent) | UnknownEpisode | NoInterpretation | ForeignFacts | WrongRevision

  function ReframeSpec(s: Store, id: string, i: Interpretation, interventionId: string, reason: string): (ReframeResult, Store) {
    var current := Get(s, id);
    if current.None? then (UnknownEpisode, s)
    else if current.value.interpretation.None? then (NoInterpretation, s)
    else
      var prior := current.value.interpretation.value;
      if !IsSubset(i.factIds, FactIds(current.value.facts)) then (ForeignFacts, s)
      else if i.revision != prior.revision + 1 then (WrongRevision, s)
      else
        var event := ReframeEvent(id, prior.interpretationId, i, interventionId, reason);
        if event in s.reframes then (Reframed(event), s) else (Reframed(event), s.(reframes := s.reframes + [event]))
  }

  // ----- Restoring a checkpoint through the same checks -----

  function ReplayEpisodes(episodes: seq<Memory>): Option<Store> {
    if episodes == [] then Some(EMPTY_STORE)
    else
      var before := ReplayEpisodes(episodes[..|episodes| - 1]);
      if before.None? then None
      else
        var (result, after) := AppendSpec(before.value, episodes[|episodes| - 1]);
        if result.Appended? || result.AlreadyThere? then Some(after) else None
  }

  function ReplayAccesses(start: Store, accesses: seq<Access>): Option<Store> {
    if accesses == [] then Some(start)
    else
      var before := ReplayAccesses(start, accesses[..|accesses| - 1]);
      var access := accesses[|accesses| - 1];
      if before.None? || Find(before.value.episodes, access.memoryId).None? || access in before.value.accesses then None
      else Some(before.value.(accesses := before.value.accesses + [access]))
  }

  function ReplayReframes(start: Store, reframes: seq<ReframeEvent>): Option<Store> {
    if reframes == [] then Some(start)
    else
      var before := ReplayReframes(start, reframes[..|reframes| - 1]);
      var event := reframes[|reframes| - 1];
      if before.None? || !ContinuesChain(before.value, event) then None
      else Some(before.value.(reframes := before.value.reframes + [event]))
  }

  /** The checks on a reframing that is read back. */
  predicate ContinuesChain(s: Store, event: ReframeEvent) {
    var current := Get(s, event.memoryId);
    && current.Some? && current.value.interpretation.Some?
    && event.priorId == current.value.interpretation.value.interpretationId
    && IsSubset(event.interpretation.factIds, FactIds(current.value.facts))
  }

  function RestoreStore(checkpoint: Store): Option<Store> {
    if !CheckpointValid(checkpoint) then None
    else
      var first := ReplayEpisodes(checkpoint.episodes);
      if first.None? then None
      else
        var second := ReplayAccesses(first.value, checkpoint.accesses);
        if second.None? then None else ReplayReframes(second.value, checkpoint.reframes)
  }

  /** Every episode is checked again when a checkpoint is captured and when it is read. */
  predicate CheckpointValid(s: Store) {
    forall m | m in s.episodes :: MemoryValid(m)
  }

  // ----- What holds of every reachable store -----

  predicate DistinctMemoryIds(episodes: seq<Memory>) {
    forall i, j | 0 <= i < j < |episodes| :: episodes[i].memoryId != episodes[j].memoryId
  }

  /** The `i`-th reframing answers the interpretation then in force, one revision up. */
  predicate ReframeFits(s: Store, i: nat)
    requires i < |s.reframes|
  {
    var event := s.reframes[i];
    var before := s.(reframes := s.reframes[..i]);
    ContinuesChain(before, event) && event.interpretation.revision == Get(before, event.memoryId).value.interpretation.value.revision + 1
  }

  ghost predicate StoreOk(s: Store) {
    && DistinctMemoryIds(s.episodes)
    && (forall m | m in s.episodes :: MemoryValid(m) && m.retrievalCount == 0)
    && Distinct(s.accesses)
    && (forall a | a in s.accesses :: Find(s.episodes, a.memoryId).Some?)
    && (forall i | 0 <= i < |s.reframes| :: ReframeFits(s, i))
  }

  lemma {:induction false} FindAfterAppend(episodes: seq<Memory>, m: Memory, id: string)
    ensures Find(episodes + [m], id) == if Find(episodes, id).Some? then Find(episodes, id) else if m.memoryId == id then Some(m) else None
  {
    if episodes == [] {
      assert episodes + [m] == [m];
    } else {
      assert (episodes + [m])[0] == episodes[0] && (episodes + [m])[1..] == episodes[1..] + [m];
      FindAfterAppend(episodes[1..], m, id);
    }
  }

  lemma {:induction false} FindInDistinct(episodes: seq<Memory>, i: nat)
    requires DistinctMemoryIds(episodes) && i < |episodes|
    ensures Find(episodes, episodes[i].memoryId) == Some(episodes[i])
  {
    if i > 0 {
      FindInDistinct(episodes[1..], i - 1);
    }
  }

  /** What a reframing's checks look at: its episode and the interpretation in force. */
  lemma ChainLooksAt(s: Store, t: Store, event: ReframeEvent)
    requires t.reframes == s.reframes && Find(t.episodes, event.memoryId) == Find(s.episodes, event.memoryId)
    ensures ContinuesChain(t, event) == ContinuesChain(s, event)
    ensures ContinuesChain(s, event) ==>
              && Get(t, event.memoryId).Some? && Get(s, event.memoryId).Some?
              && Get(t, event.memoryId).value.interpretation == Get(s, event.memoryId).value.interpretation
  {
  }

  lemma ReframesStillFit(s: Store, t: Store)
    requires StoreOk(s) && t.reframes == s.reframes
    requires forall id :: Find(s.episodes, id).Some? ==> Find(t.episodes, id) == Find(s.episodes, id)
    ensures forall i | 0 <= i < |t.reframes| :: ReframeFits(t, i)
  {
    hide ContinuesChain, Find, Get;
    forall i | 0 <= i < |t.reframes| ensures ReframeFits(t, i) {
      assert ReframeFits(s, i);
      var event := s.reframes[i];
      var earlier := s.(reframes := s.reframes[..i]);
      ChainNeedsEpisode(earlier, event);
      ChainLooksAt(earlier, t.(reframes := t.reframes[..i]), event);
    }
  }

  lemma ChainNeedsEpisode(s: Store, event: ReframeEvent)
    requires ContinuesChain(s, event)
    ensures Find(s.episodes, event.memoryId).Some?
  {
  }

  lemma AppendKeepsStoreOk(s: Store, m: Memory)
    requires StoreOk(s) && MemoryValid(m)
    ensures StoreOk(AppendSpec(s, m).1)
    ensures s.episodes <= AppendSpec(s, m).1.episodes
  {
    hide MemoryValid, ReframeFits;
    var (result, t) := AppendSpec(s, m);
    if result.Appended? {
      forall id ensures Find(s.episodes, id).Some? ==> Find(t.episodes, id) == Find(s.episodes, id) {
        FindAfterAppend(s.episodes, m, id);
      }
      ReframesStillFit(s, t);
    }
  }

  lemma {:induction false} RecordKeepsStoreOk(s: Store, retrieval: RetrievalId, ids: seq<string>, day: nat)
    requires StoreOk(s)
    ensures StoreOk(RecordSpec(s, retrieval, ids, day).1)
    ensures RecordSpec(s, retrieval, ids, day).1.episodes == s.episodes && RecordSpec(s, retrieval, ids, day).1.reframes == s.reframes
    ensures (forall id | id in ids :: Find(s.episodes, id).Some?) ==> RecordSpec(s, retrieval, ids, day).0
    decreases |ids|
  {
    hide MemoryValid, ReframeFits;
    if ids != [] && Find(s.episodes, ids[0]).Some? {
      var access := Access(retrieval, ids[0], day);
      var next := if access in s.accesses then s else s.(accesses := s.accesses + [access]);
      ReframesStillFit(s, next);
      RecordKeepsStoreOk(next, retrieval, ids[1..], day);
      assert ids == [ids[0]] + ids[1..];
    }
  }

  lemma {:induction false} LatestUnchanged(initial: Option<Interpretation>, reframes: seq<ReframeEvent>, event: ReframeEvent, id: string)
    ensures Latest(initial, reframes + [event], id) == if event.memoryId == id then Some(event.interpretation) else Latest(initial, reframes, id)
  {
    assert (reframes + [event])[..|reframes|] == reframes;
  }

  /** The `k`-th reframing of an episode has the stored revision plus `k`. */
  lemma {:induction false} NthRevision(s: Store, n: nat, id: string)
    requires StoreOk(s) && n <= |s.reframes| && Find(s.episodes, id).Some? && Find(s.episodes, id).value.interpretation.Some?
    ensures var base := Find(s.episodes, id).value.interpretation;
            && Latest(base, s.reframes[..n], id).Some?
            && Latest(base, s.reframes[..n], id).value.revision == base.value.revision + ReframeCount(s.reframes[..n], id)
  {
    hide MemoryValid;
    if n > 0 {
      var earlier := s.reframes[..n - 1];
      assert s.reframes[..n][..n - 1] == earlier;
      NthRevision(s, n - 1, id);
      assert ReframeFits(s, n - 1);
    }
  }

  /** No episode without an interpretation is ever reframed. */
  lemma {:induction false} NoReadingNoReframe(s: Store, n: nat, id: string)
    requires StoreOk(s) && n <= |s.reframes| && Find(s.episodes, id).Some? && Find(s.episodes, id).value.interpretation.None?
    ensures Latest(None, s.reframes[..n], id).None?
  {
    hide MemoryValid;
    if n > 0 {
      assert s.reframes[..n][..n - 1] == s.reframes[..n - 1];
      NoReadingNoReframe(s, n - 1, id);
      assert ReframeFits(s, n - 1);
    }
  }

  lemma {:induction false} CountsGrow(reframes: seq<ReframeEvent>, m: nat, n: nat, id: string)
    requires m <= n <= |reframes|
    ensures ReframeCount(reframes[..m], id) <= ReframeCount(reframes[..n], id)
  {
    if m < n {
      assert reframes[..n][..n - 1] == reframes[..n - 1];
      CountsGrow(reframes, m, n - 1, id);
    }
  }

  /** A new revision is above every revision there is, so the branch for a repeated reframing is never taken. */
  lemma ReframeIsNeverRepeated(s: Store, event: ReframeEvent)
    requires StoreOk(s) && ContinuesChain(s, event)
    requires event.interpretation.revision == Get(s, event.memoryId).value.interpretation.value.revision + 1
    ensures event !in s.reframes
  {
    hide MemoryValid;
    var n := |s.reframes|;
    assert s.reframes[..n] == s.reframes;
    var id := event.memoryId;
    if Find(s.episodes, id).value.interpretation.None? {
      NoReadingNoReframe(s, n, id);
    } else {
      NthRevision(s, n, id);
      forall i | 0 <= i < n ensures s.reframes[i] != event {
        if s.reframes[i].memoryId == id {
          NthRevision(s, i + 1, id);
          CountsGrow(s.reframes, i + 1, n, id);
          assert s.reframes[..i + 1][i] == s.reframes[i];
        }
      }
    }
  }

  lemma ReframeKeepsStoreOk(s: Store, id: string, i: Interpretation, interventionId: string, reason: string)
    requires StoreOk(s)
    ensures var (result, t) := ReframeSpec(s, id, i, interventionId, reason);
            && StoreOk(t) && t.episodes == s.episodes && t.accesses == s.accesses
            && (result.Reframed? ==> result.event !in s.reframes && t.reframes == s.reframes + [result.event])
  {
    hide MemoryValid, Find;
    var (result, t) := ReframeSpec(s, id, i, interventionId, reason);
    if result.Reframed? {
      var event := result.event;
      ReframeIsNeverRepeated(s, event);
      assert t.reframes == s.reframes + [event];
      forall k | 0 <= k < |t.reframes| ensures ReframeFits(t, k) {
        if k < |s.reframes| {
          assert ReframeFits(s, k);
          assert t.reframes[..k] == s.reframes[..k];
        } else {
          assert t.reframes[..k] == s.reframes;
        }
      }
    }
  }

  // ----- The round trip -----

  lemma NewEpisodeAppends(before: seq<Memory>, m: Memory)
    requires DistinctMemoryIds(before + [m]) && m.retrievalCount == 0
    ensures AppendSpec(Store(before, [], []), m) == (Appended, Store(before + [m], [], [])) && DistinctMemoryIds(before)
  {
    hide Find;
    var all := before + [m];
    assert forall i | 0 <= i < |before| :: all[i] == before[i];
    assert all[|before|] == m;
  }

  lemma {:induction false} EpisodesReplay(episodes: seq<Memory>)
    requires DistinctMemoryIds(episodes) && forall m | m in episodes :: m.retrievalCount == 0
    ensures ReplayEpisodes(episodes) == Some(Store(episodes, [], []))
    decreases |episodes|
  {
    hide AppendSpec, DistinctMemoryIds;
    if episodes != [] {
      var before, m := episodes[..|episodes| - 1], episodes[|episodes| - 1];
      assert episodes == before + [m];
      NewEpisodeAppends(before, m);
      EpisodesReplay(before);
    }
  }

  lemma {:induction false} AccessesReplay(s: Store, n: nat)
    requires StoreOk(s) && n <= |s.accesses|
    ensures ReplayAccesses(Store(s.episodes, [], []), s.accesses[..n]) == Some(Store(s.episodes, s.accesses[..n], []))
  {
    hide MemoryValid, ReframeFits, Find;
    if n > 0 {
      assert s.accesses[..n][..n - 1] == s.accesses[..n - 1];
      AccessesReplay(s, n - 1);
      assert s.accesses[n - 1] in s.accesses && s.accesses[n - 1] !in s.accesses[..n - 1];
      assert s.accesses[..n] == s.accesses[..n - 1] + [s.accesses[n - 1]];
    }
  }

  lemma {:induction false} ReframesReplay(s: Store, n: nat)
    requires StoreOk(s) && n <= |s.reframes|
    ensures ReplayReframes(Store(s.episodes, s.accesses, []), s.reframes[..n]) == Some(s.(reframes := s.reframes[..n]))
  {
    hide MemoryValid, ContinuesChain;
    if n > 0 {
      assert s.reframes[..n][..n - 1] == s.reframes[..n - 1];
      ReframesReplay(s, n - 1);
      assert ReframeFits(s, n - 1);
      assert s.reframes[..n] == s.reframes[..n - 1] + [s.reframes[n - 1]];
    }
  }

  /** Restoring the checkpoint of any reachable store succeeds and gives the same store. */
  lemma StoreRoundTrip(s: Store)
    requires StoreOk(s)
    ensures RestoreStore(s) == Some(s)
  {
    hide MemoryValid, ReframeFits, ReplayEpisodes, ReplayAccesses, ReplayReframes;
    assert s.episodes[..|s.episodes|] == s.episodes;
    assert s.accesses[..|s.accesses|] == s.accesses;
    assert s.reframes[..|s.reframes|] == s.reframes;
    EpisodesReplay(s.episodes);
    AccessesReplay(s, |s.accesses|);
    ReframesReplay(s, |s.reframes|);
  }

  // ----- Every history -----

  datatype StoreCall =
    | Append(memory: Memory)
    | RecordRetrieval(retrieval: RetrievalId, ids: seq<string>, day: nat)
    | ReframeOne(id: string, interpretation: Interpretation, interventionId: string, reason: string)

  function Perform(s: Store, c: StoreCall): Store {
    match c
    case Append(m) => if MemoryValid(m) then AppendSpec(s, m).1 else s
    case RecordRetrieval(retrieval, ids, day) => RecordSpec(s, retrieval, ids, day).1
    case ReframeOne(id, i, interventionId, reason) => ReframeSpec(s, id, i, interventionId, reason).1
  }

  function PerformAll(calls: seq<StoreCall>): Store {
    if calls == [] then EMPTY_STORE else Perform(PerformAll(calls[..|calls| - 1]), calls[|calls| - 1])
  }

  /** After any calls the store restores to itself, and the last call only extended the raw episodes. */
  lemma {:induction false} EveryHistoryRestores(calls: seq<StoreCall>)
    ensures StoreOk(PerformAll(calls)) && RestoreStore(PerformAll(calls)) == Some(PerformAll(calls))
    ensures calls != [] ==> PerformAll(calls[..|calls| - 1]).episodes <= PerformAll(calls).episodes
  {
    hide StoreOk, RestoreStore, AppendSpec, RecordSpec, ReframeSpec;
    if calls == [] {
      EmptyStoreOk();
    } else {
      var before := PerformAll(calls[..|calls| - 1]);
      EveryHistoryRestores(calls[..|calls| - 1]);
      match calls[|calls| - 1]
      case Append(m) =>
        if MemoryValid(m) {
          AppendKeepsStoreOk(before, m);
        }
      case RecordRetrieval(retrieval, ids, day) => RecordKeepsStoreOk(before, retrieval, ids, day);
      case ReframeOne(id, i, interventionId, reason) => ReframeKeepsStoreOk(before, id, i, interventionId, reason);
    }
    StoreRoundTrip(PerformAll(calls));
  }

  lemma EmptyStoreOk()
    ensures StoreOk(EMPTY_STORE)
  {
  }

  // ----- The store -----

  class EpisodeStore {
    var episodes: seq<Memory>
    var accesses: seq<Access>
    var reframes: seq<ReframeEvent>

    function State(): Store
      reads this
    {
      Store(episodes, accesses, reframes)
    }

    constructor ()
      ensures State() == EMPTY_STORE
    {
      episodes, accesses, reframes := [], [], [];
    }

    method Append(m: Memory) returns (r: AppendResult)
      modifies this
      ensures (r, State()) == AppendSpec(old(State()), m)
    {
      var existing := Find(episodes, m.memoryId);
      if existing.Some? {
        return if existing.value == m then AlreadyThere else DifferentEvidence;
      }
      if m.retrievalCount != 0 {
        return HasRetrievals;
      }
      episodes := episodes + [m];
      return Appended;
    }

    method RecordRetrieval(retrieval: RetrievalId, ids: seq<string>, day: nat) returns (ok: bool)
      modifies this
      ensures (ok, State()) == RecordSpec(old(State()), retrieval, ids, day)
    {
      hide Find;
      for i := 0 to |ids|
        invariant RecordSpec(old(State()), retrieval, ids, day) == RecordSpec(State(), retrieval, ids[i..], day)
      {
        assert ids[i..][1..] == ids[i + 1..];
        if Find(episodes, ids[i]).None? {
          return false;
        }
        var access := Access(retrieval, ids[i], day);
        if access !in accesses {
          accesses := accesses + [access];
        }
      }
      return true;
    }

    method Reframe(id: string, i: Interpretation, interventionId: string, reason: string) returns (r: ReframeResult)
      modifies this
      ensures (r, State()) == ReframeSpec(old(State()), id, i, interventionId, reason)
    {
      var current := Get(State(), id);
      if current.None? {
        return UnknownEpisode;
      }
      if current.value.interpretation.None? {
        return NoInterpretation;
      }
      if !IsSubset(i.factIds, FactIds(current.value.facts)) {
        return ForeignFacts;
      }
      if i.revision != current.value.interpretation.value.revision + 1 {
        return WrongRevision;
      }
      var event := ReframeEvent(id, current.value.interpretation.value.interpretationId, i, interventionId, reason);
      if event !in reframes {
        reframes := reframes + [event];
      }
      return Reframed(event);
    }

    /** Replays a checkpoint through the checks of live writes; false means a check failed. */
    static method Restore(checkpoint: Store) returns (ok: bool, s: EpisodeStore)
      ensures fresh(s)
      ensures ok <==> RestoreStore(checkpoint).Some?
      ensures ok ==> s.State() == RestoreStore(checkpoint).value
    {
      hide AppendSpec, ContinuesChain, MemoryValid, Find, CheckpointValid;
      s := new EpisodeStore();
      if !CheckpointValid(checkpoint) {
        return false, s;
      }
      for i := 0 to |checkpoint.episodes|
        invariant fresh(s) && ReplayEpisodes(checkpoint.episodes[..i]) == Some(s.State())
      {
        assert checkpoint.episodes[..i + 1][..i] == checkpoint.episodes[..i];
        var r := s.Append(checkpoint.episodes[i]);
        if !r.Appended? && !r.AlreadyThere? {
          EpisodesFailEarly(checkpoint.episodes, i + 1);
          return false, s;
        }
      }
      assert checkpoint.episodes[..|checkpoint.episodes|] == checkpoint.episodes;
      ghost var first := s.State();
      for i := 0 to |checkpoint.accesses|
        invariant fresh(s) && ReplayAccesses(first, checkpoint.accesses[..i]) == Some(s.State())
      {
        assert checkpoint.accesses[..i + 1][..i] == checkpoint.accesses[..i];
        var access := checkpoint.accesses[i];
        if Find(s.episodes, access.memoryId).None? || access in s.accesses {
          AccessesFailEarly(first, checkpoint.accesses, i + 1);
          return false, s;
        }
        s.accesses := s.accesses + [access];
      }
      assert checkpoint.accesses[..|checkpoint.accesses|] == checkpoint.accesses;
      ghost var second := s.State();
      for i := 0 to |checkpoint.reframes|
        invariant fresh(s) && ReplayReframes(second, checkpoint.reframes[..i]) == Some(s.State())
      {
        assert checkpoint.reframes[..i + 1][..i] == checkpoint.reframes[..i];
        if !ContinuesChain(s.State(), checkpoint.reframes[i]) {
          ReframesFailEarly(second, checkpoint.reframes, i + 1);
          return false, s;
        }
        s.reframes := s.reframes + [checkpoint.reframes[i]];
      }
      assert checkpoint.reframes[..|checkpoint.reframes|] == checkpoint.reframes;
      return true, s;
    }
  }

  lemma {:induction false} EpisodesFailEarly(episodes: seq<Memory>, n: nat)
    requires n <= |episodes| && ReplayEpisodes(episodes[..n]).None?
    ensures ReplayEpisodes(episodes).None?
    decreases |episodes| - n
  {
    hide AppendSpec;
    if n == |episodes| {
      assert episodes[..n] == episodes;
    } else {
      assert episodes[..n + 1][..n] == episodes[..n];
      EpisodesFailEarly(episodes, n + 1);
    }
  }

  lemma {:induction false} AccessesFailEarly(start: Store, accesses: seq<Access>, n: nat)
    requires n <= |accesses| && ReplayAccesses(start, accesses[..n]).None?
    ensures ReplayAccesses(start, accesses).None?
    decreases |accesses| - n
  {
    if n == |accesses| {
      assert accesses[..n] == accesses;
    } else {
      assert accesses[..n + 1][..n] == accesses[..n];
      AccessesFailEarly(start, accesses, n + 1);
    }
  }

  lemma {:induction false} ReframesFailEarly(start: Store, reframes: seq<ReframeEvent>, n: nat)
    requires n <= |reframes| && ReplayReframes(start, reframes[..n]).None?
    ensures ReplayReframes(start, reframes).None?
    decreases |reframes| - n
  {
    hide ContinuesChain;
    if n == |reframes| {
      assert reframes[..n] == reframes;
    } else {
      assert reframes[..n + 1][..n] == reframes[..n];
      ReframesFailEarly(start, reframes, n + 1);
    }
  }
}
