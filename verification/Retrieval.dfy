/** Audited top-k retrieval over the episode store. */
module Retrieval {
  import opened Wrappers
  import opened Ordering
  import opened World
  import opened Episodes

  datatype Config = Config(configId: string, policy: string, topK: int, partnerSalience: real, otherSalience: real)

  /** The weighted score of an eligible memory: any function of the query and the memory's current view. */
  type Scoring = (Config, Query, Memory) -> real

  datatype Exclusion = NotEligible | BlockedId | BlockedTag

  datatype Candidate = Candidate(memoryId: string, total: real, eligible: bool, selected: bool, reason: Option<Exclusion>)

  /** The audit record; query, policy, configuration and k are in its identifier. */
  datatype RetrievalRecord = RetrievalRecord(id: RetrievalId, candidates: seq<Candidate>, selectedIds: seq<string>)

  predicate QueryValid(q: Query) {
    && q.text != "" && 1 <= q.day <= LAST_DAY
    && Distinct(q.participants) && Distinct(q.goalIds) && Distinct(q.blockedIds) && Distinct(q.blockedTags)
  }

  function ExclusionReason(q: Query, m: Memory): Option<Exclusion> {
    if !m.retrievalEligible then Some(NotEligible)
    else if m.memoryId in q.blockedIds then Some(BlockedId)
    else if exists t | t in m.tags :: t in q.blockedTags then Some(BlockedTag)
    else None
  }

  predicate IsEligible(q: Query, m: Memory) {
    ExclusionReason(q, m).None?
  }

  function ScoreOne(c: Config, score: Scoring, q: Query, m: Memory): Candidate {
    var reason := ExclusionReason(q, m);
    Candidate(m.memoryId, if reason.None? then score(c, q, m) else 0.0, reason.None?, false, reason)
  }

  function ScoreAll(c: Config, score: Scoring, q: Query, ms: seq<Memory>): (r: seq<Candidate>)
    ensures |r| == |ms| && forall i | 0 <= i < |r| :: r[i] == ScoreOne(c, score, q, ms[i])
  {
    if ms == [] then [] else [ScoreOne(c, score, q, ms[0])] + ScoreAll(c, score, q, ms[1..])
  }

  /** Eligible candidates first, then by descending score, then by identifier. */
  predicate RanksBefore(a: Candidate, b: Candidate) {
    if a.eligible != b.eligible then a.eligible else ScoresBefore(a, b)
  }

  predicate ScoresBefore(a: Candidate, b: Candidate) {
    a.total > b.total || (a.total == b.total && AtMost(a.memoryId, b.memoryId))
  }

  function EligibleOf(cs: seq<Candidate>): seq<Candidate> {
    if cs == [] then [] else if cs[0].eligible then [cs[0]] + EligibleOf(cs[1..]) else EligibleOf(cs[1..])
  }

  function Ids(cs: seq<Candidate>): (r: seq<string>)
    ensures |r| == |cs| && forall i | 0 <= i < |r| :: r[i] == cs[i].memoryId
  {
    if cs == [] then [] else [cs[0].memoryId] + Ids(cs[1..])
  }

  function FirstK<T>(s: seq<T>, k: nat): seq<T> {
    if |s| <= k then s else s[..k]
  }

  function Flag(cs: seq<Candidate>, selected: seq<string>): (r: seq<Candidate>)
    ensures |r| == |cs| && forall i | 0 <= i < |r| :: r[i] == cs[i].(selected := cs[i].memoryId in selected)
  {
    if cs == [] then [] else [cs[0].(selected := cs[0].memoryId in selected)] + Flag(cs[1..], selected)
  }

  /** What ranking computes: sort everything, then keep the first k eligible. */
  function RankSpec(c: Config, score: Scoring, q: Query, ms: seq<Memory>, k: nat): RetrievalRecord {
    var ranked := SortBy(RanksBefore, ScoreAll(c, score, q, ms));
    var selected := FirstK(Ids(EligibleOf(ranked)), k);
    var candidates := Flag(ranked, selected);
    RetrievalRecord(RetrievalId(q, c.configId, c.policy, k, Ids(candidates)), candidates, selected)
  }

  /** The independent specification: keep the eligible, sort them, take the first k. */
  predicate RecordValid(r: RetrievalRecord) {
    && Distinct(Ids(r.candidates)) && Distinct(r.selectedIds)
    && r.selectedIds == FirstK(Ids(SortBy(ScoresBefore, EligibleOf(r.candidates))), r.id.topK)
    && (forall c | c in r.candidates :: (c.selected <==> c.memoryId in r.selectedIds) && (c.eligible <==> c.reason.None?) && (c.selected ==> c.eligible))
    && (forall id | id in r.selectedIds :: id in Ids(r.candidates))
  }

  // ----- The two orders agree -----

  lemma ScoresBeforeIsTotalPreorder()
    ensures TotalPreorder(ScoresBefore)
  {
    AtMostIsTotalPreorder();
    forall a: Candidate, b: Candidate ensures ScoresBefore(a, b) || ScoresBefore(b, a) {
      assert AtMost(a.memoryId, b.memoryId) || AtMost(b.memoryId, a.memoryId);
    }
    forall a: Candidate, b: Candidate, c: Candidate | ScoresBefore(a, b) && ScoresBefore(b, c) ensures ScoresBefore(a, c) {
      if AtMost(a.memoryId, b.memoryId) && AtMost(b.memoryId, c.memoryId) {
        assert AtMost(a.memoryId, c.memoryId);
      }
    }
  }

  lemma RanksBeforeIsTotalPreorder()
    ensures TotalPreorder(RanksBefore)
  {
    hide ScoresBefore;
    ScoresBeforeIsTotalPreorder();
    forall a: Candidate, b: Candidate ensures RanksBefore(a, b) || RanksBefore(b, a) {
      assert ScoresBefore(a, b) || ScoresBefore(b, a);
    }
    forall a: Candidate, b: Candidate, c: Candidate | RanksBefore(a, b) && RanksBefore(b, c) ensures RanksBefore(a, c) {
      if ScoresBefore(a, b) && ScoresBefore(b, c) {
        assert ScoresBefore(a, c);
      }
    }
  }

  lemma {:induction false} EligibleMembers(cs: seq<Candidate>, c: Candidate)
    ensures multiset(EligibleOf(cs))[c] == if c.eligible then multiset(cs)[c] else 0
    ensures c in EligibleOf(cs) <==> c in cs && c.eligible
  {
    if cs != [] {
      assert cs == [cs[0]] + cs[1..];
      EligibleMembers(cs[1..], c);
    }
  }

  lemma {:induction false} EligibleStaysSorted(cs: seq<Candidate>)
    requires SortedBy(RanksBefore, cs)
    ensures SortedBy(ScoresBefore, EligibleOf(cs))
  {
    hide ScoresBefore;
    if cs != [] {
      assert forall i, j | 0 <= i < j < |cs[1..]| :: RanksBefore(cs[1..][i], cs[1..][j]);
      EligibleStaysSorted(cs[1..]);
      if cs[0].eligible {
        var rest := EligibleOf(cs[1..]);
        forall y | y in rest ensures ScoresBefore(cs[0], y) {
          EligibleMembers(cs[1..], y);
          var i :| 0 <= i < |cs| - 1 && cs[1..][i] == y;
          assert RanksBefore(cs[0], cs[i + 1]);
        }
        PrependSorted(ScoresBefore, cs[0], rest);
      }
    }
  }

  predicate DistinctCandidates(cs: seq<Candidate>) {
    forall i, j | 0 <= i < j < |cs| :: cs[i].memoryId != cs[j].memoryId
  }

  lemma SameIdSameCandidate(cs: seq<Candidate>, a: Candidate, b: Candidate)
    requires DistinctCandidates(cs) && a in cs && b in cs && a.memoryId == b.memoryId
    ensures a == b
  {
    var i :| 0 <= i < |cs| && cs[i] == a;
    var j :| 0 <= j < |cs| && cs[j] == b;
  }

  lemma ScoresSeparate(cs: seq<Candidate>, part: seq<Candidate>)
    requires DistinctCandidates(cs) && forall c | c in part :: c in cs
    ensures Separates(ScoresBefore, part)
  {
    forall x, y | x in part && y in part && ScoresBefore(x, y) && ScoresBefore(y, x) ensures x == y {
      if x.memoryId != y.memoryId {
        BeforeIsAntisymmetric(x.memoryId, y.memoryId);
      }
      SameIdSameCandidate(cs, x, y);
    }
  }

  lemma BeforeIsAntisymmetric(a: string, b: string)
    requires AtMost(a, b) && AtMost(b, a)
    ensures a == b
  {
    if a != b {
      BeforeIsTransitive(a, b, a);
      BeforeIsTotal(a, a);
    }
  }

  /** Sorting everything and then filtering is filtering and then sorting. */
  lemma SortThenFilterIsFilterThenSort(cs: seq<Candidate>)
    requires DistinctCandidates(cs)
    ensures EligibleOf(SortBy(RanksBefore, cs)) == SortBy(ScoresBefore, EligibleOf(cs))
  {
    hide SortBy, SortedBy, RanksBefore, ScoresBefore, DistinctCandidates, EligibleOf;
    var ranked := SortBy(RanksBefore, cs);
    RanksBeforeIsTotalPreorder();
    ScoresBeforeIsTotalPreorder();
    SortByCorrect(RanksBefore, cs);
    EligibleStaysSorted(ranked);
    var left, right := EligibleOf(ranked), SortBy(ScoresBefore, EligibleOf(cs));
    SortByCorrect(ScoresBefore, EligibleOf(cs));
    forall c ensures multiset(left)[c] == multiset(right)[c] {
      EligibleMembers(ranked, c);
      EligibleMembers(cs, c);
    }
    forall c | c in left ensures c in cs {
      EligibleMembers(ranked, c);
      assert c in multiset(ranked);
    }
    forall c | c in right ensures c in cs {
      assert c in multiset(EligibleOf(cs));
      EligibleMembers(cs, c);
    }
    ScoresSeparate(cs, left);
    ScoresSeparate(cs, right);
    SortedListingIsUnique(ScoresBefore, left, right);
  }

  // ----- Ranking meets its specification -----

  predicate DistinctMemories(ms: seq<Memory>) {
    forall i, j | 0 <= i < j < |ms| :: ms[i].memoryId != ms[j].memoryId
  }

  lemma {:induction false} FlagKeepsEligible(cs: seq<Candidate>, selected: seq<string>)
    ensures Ids(EligibleOf(Flag(cs, selected))) == Ids(EligibleOf(cs))
    ensures EligibleOf(Flag(cs, selected)) == Flag(EligibleOf(cs), selected)
  {
    if cs != [] {
      FlagKeepsEligible(cs[1..], selected);
      assert Flag(cs, selected)[1..] == Flag(cs[1..], selected);
    }
  }

  /** Flags do not enter the order. */
  lemma {:induction false} InsertIgnoresFlags(x: Candidate, s: seq<Candidate>, selected: seq<string>)
    ensures InsertBy(ScoresBefore, x.(selected := x.memoryId in selected), Flag(s, selected)) == Flag(InsertBy(ScoresBefore, x, s), selected)
  {
    var y := x.(selected := x.memoryId in selected);
    if s == [] {
    } else {
      assert Flag(s, selected)[1..] == Flag(s[1..], selected);
      assert ScoresBefore(y, Flag(s, selected)[0]) <==> ScoresBefore(x, s[0]);
      if ScoresBefore(x, s[0]) {
        assert Flag([x] + s, selected) == [y] + Flag(s, selected);
      } else {
        InsertIgnoresFlags(x, s[1..], selected);
        assert Flag([s[0]] + InsertBy(ScoresBefore, x, s[1..]), selected)
            == [Flag(s, selected)[0]] + Flag(InsertBy(ScoresBefore, x, s[1..]), selected);
      }
    }
  }

  lemma {:induction false} SortIgnoresFlags(s: seq<Candidate>, selected: seq<string>)
    ensures SortBy(ScoresBefore, Flag(s, selected)) == Flag(SortBy(ScoresBefore, s), selected)
  {
    hide ScoresBefore, InsertBy;
    if s != [] {
      assert Flag(s, selected)[1..] == Flag(s[1..], selected);
      SortIgnoresFlags(s[1..], selected);
      InsertIgnoresFlags(s[0], SortBy(ScoresBefore, s[1..]), selected);
    }
  }

  lemma {:induction false} IdsIgnoreFlags(cs: seq<Candidate>, selected: seq<string>)
    ensures Ids(Flag(cs, selected)) == Ids(cs)
  {
  }

  lemma DistinctCandidateIds(cs: seq<Candidate>)
    ensures DistinctCandidates(cs) <==> Distinct(Ids(cs))
  {
  }

  lemma {:induction false} EligibleStaysDistinct(cs: seq<Candidate>)
    requires DistinctCandidates(cs)
    ensures DistinctCandidates(EligibleOf(cs)) && forall c :: c in EligibleOf(cs) <==> c in cs && c.eligible
  {
    if cs != [] {
      assert cs == [cs[0]] + cs[1..];
      EligibleStaysDistinct(cs[1..]);
    }
  }

  lemma ScoredDistinct(c: Config, score: Scoring, q: Query, ms: seq<Memory>)
    requires DistinctMemories(ms)
    ensures DistinctCandidates(ScoreAll(c, score, q, ms))
  {
  }

  lemma RankedDistinct(cs: seq<Candidate>)
    requires DistinctCandidates(cs)
    ensures DistinctCandidates(SortBy(RanksBefore, cs)) && SortedBy(RanksBefore, SortBy(RanksBefore, cs))
    ensures forall c :: c in SortBy(RanksBefore, cs) <==> c in cs
  {
    hide SortBy, SortedBy, RanksBefore;
    var ranked := SortBy(RanksBefore, cs);
    RanksBeforeIsTotalPreorder();
    SortByCorrect(RanksBefore, cs);
    assert Distinct(cs);
    PermutationKeepsDistinct(cs, ranked);
    forall c ensures c in ranked <==> c in cs {
      assert c in multiset(ranked) <==> c in multiset(cs);
    }
    forall i, j | 0 <= i < j < |ranked| ensures ranked[i].memoryId != ranked[j].memoryId {
      if ranked[i].memoryId == ranked[j].memoryId {
        SameIdSameCandidate(cs, ranked[i], ranked[j]);
        assert false;
      }
    }
  }

  lemma FirstKOf(s: seq<string>, k: nat)
    requires Distinct(s)
    ensures Distinct(FirstK(s, k)) && forall x | x in FirstK(s, k) :: x in s
  {
  }

  /** The selected are the first k eligible by score: the sort-then-filter ranking meets its specification. */
  lemma RankMeetsSpecification(c: Config, score: Scoring, q: Query, ms: seq<Memory>, k: nat)
    requires DistinctMemories(ms)
    ensures RecordValid(RankSpec(c, score, q, ms, k))
    ensures RankSpec(c, score, q, ms, k).selectedIds == FirstK(Ids(SortBy(ScoresBefore, EligibleOf(ScoreAll(c, score, q, ms)))), k)
  {
    hide SortBy, SortedBy, RanksBefore, ScoresBefore, EligibleOf, DistinctMemories, ScoreOne, DistinctCandidates, FirstK, Distinct,
      Flag, Ids, ScoreAll;
    var cs := ScoreAll(c, score, q, ms);
    ScoredDistinct(c, score, q, ms);
    RankedDistinct(cs);
    SortThenFilterIsFilterThenSort(cs);
    var ranked := SortBy(RanksBefore, cs);
    var eligible := EligibleOf(ranked);
    var selected := FirstK(Ids(eligible), k);
    var candidates := Flag(ranked, selected);
    IdsIgnoreFlags(ranked, selected);
    DistinctCandidateIds(ranked);
    EligibleStaysDistinct(ranked);
    DistinctCandidateIds(eligible);
    FirstKOf(Ids(eligible), k);
    SelectedOrder(ranked, selected);
    SelectedFlags(c, score, q, ms, ranked, selected);
  }

  lemma SelectedOrder(ranked: seq<Candidate>, selected: seq<string>)
    requires SortedBy(RanksBefore, ranked)
    ensures Ids(SortBy(ScoresBefore, EligibleOf(Flag(ranked, selected)))) == Ids(EligibleOf(ranked))
  {
    hide SortBy, SortedBy, RanksBefore, ScoresBefore, EligibleOf, Flag, Ids;
    EligibleStaysSorted(ranked);
    SortedIsFixed(ScoresBefore, EligibleOf(ranked));
    FlagKeepsEligible(ranked, selected);
    SortIgnoresFlags(EligibleOf(ranked), selected);
    IdsIgnoreFlags(EligibleOf(ranked), selected);
  }

  lemma SelectedFlags(c: Config, score: Scoring, q: Query, ms: seq<Memory>, ranked: seq<Candidate>, selected: seq<string>)
    requires forall x :: x in ranked <==> x in ScoreAll(c, score, q, ms)
    requires DistinctCandidates(ranked) && forall id | id in selected :: id in Ids(EligibleOf(ranked))
    ensures forall x | x in Flag(ranked, selected) ::
              (x.selected <==> x.memoryId in selected) && (x.eligible <==> x.reason.None?) && (x.selected ==> x.eligible)
    ensures forall id | id in selected :: id in Ids(Flag(ranked, selected))
  {
    hide SortBy, ExclusionReason;
    EligibleStaysDistinct(ranked);
    IdsIgnoreFlags(ranked, selected);
    var candidates := Flag(ranked, selected);
    forall x | x in candidates
      ensures (x.selected <==> x.memoryId in selected) && (x.eligible <==> x.reason.None?) && (x.selected ==> x.eligible)
    {
      var i :| 0 <= i < |candidates| && candidates[i] == x;
      assert ranked[i] in ScoreAll(c, score, q, ms);
      if x.memoryId in selected {
        var e := CandidateOf(EligibleOf(ranked), x.memoryId);
        SameIdSameCandidate(ranked, ranked[i], e);
      }
    }
    forall id | id in selected ensures id in Ids(ranked) {
      var e := CandidateOf(EligibleOf(ranked), id);
      var i :| 0 <= i < |ranked| && ranked[i] == e;
      assert Ids(ranked)[i] == id;
    }
  }

  lemma CandidateOf(cs: seq<Candidate>, id: string) returns (c: Candidate)
    requires id in Ids(cs)
    ensures c in cs && c.memoryId == id
  {
    var i :| 0 <= i < |Ids(cs)| && Ids(cs)[i] == id;
    c := cs[i];
  }

  /** No eligible memory that was passed over scores above a selected one. */
  lemma NoneBeatsSelected(c: Config, score: Scoring, q: Query, ms: seq<Memory>, k: nat, a: Candidate, b: Candidate)
    requires DistinctMemories(ms)
    requires a in RankSpec(c, score, q, ms, k).candidates && b in RankSpec(c, score, q, ms, k).candidates
    requires a.selected && b.eligible && !b.selected
    ensures ScoresBefore(a, b)
  {
    hide SortBy, SortedBy, RanksBefore, ScoresBefore, EligibleOf, DistinctMemories, ScoreOne, DistinctCandidates, FirstK, Flag, Ids, ScoreAll;
    var cs := ScoreAll(c, score, q, ms);
    ScoredDistinct(c, score, q, ms);
    RankedDistinct(cs);
    var ranked := SortBy(RanksBefore, cs);
    var eligible := EligibleOf(ranked);
    EligibleStaysSorted(ranked);
    EligibleStaysDistinct(ranked);
    var selected := FirstK(Ids(eligible), k);
    var x, y := UnflaggedCandidate(ranked, selected, a), UnflaggedCandidate(ranked, selected, b);
    SelectedIsEligible(ranked, eligible, k, x);
    SelectedBeforeRest(eligible, k, x, y);
    FlagsDoNotScore(a, b, x, y);
  }

  lemma SelectedIsEligible(ranked: seq<Candidate>, eligible: seq<Candidate>, k: nat, x: Candidate)
    requires DistinctCandidates(ranked) && x in ranked && forall c | c in eligible :: c in ranked
    requires x.memoryId in FirstK(Ids(eligible), k)
    ensures x in eligible
  {
    var e := CandidateOf(eligible, x.memoryId);
    SameIdSameCandidate(ranked, x, e);
  }

  lemma SelectedBeforeRest(eligible: seq<Candidate>, k: nat, x: Candidate, y: Candidate)
    requires DistinctCandidates(eligible) && SortedBy(ScoresBefore, eligible) && x in eligible && y in eligible
    requires x.memoryId in FirstK(Ids(eligible), k) && y.memoryId !in FirstK(Ids(eligible), k)
    ensures ScoresBefore(x, y)
  {
    hide SortedBy, ScoresBefore;
    var selected := FirstK(Ids(eligible), k);
    var i :| 0 <= i < |selected| && selected[i] == x.memoryId;
    assert eligible[i] in eligible && eligible[i].memoryId == x.memoryId;
    SameIdSameCandidate(eligible, eligible[i], x);
    assert forall m | 0 <= m < |selected| :: selected[m] == eligible[m].memoryId && selected[m] in selected;
    var j :| 0 <= j < |eligible| && eligible[j] == y;
    SortedAt(eligible, i, j);
  }

  lemma SortedAt(s: seq<Candidate>, i: nat, j: nat)
    requires SortedBy(ScoresBefore, s) && i < j < |s|
    ensures ScoresBefore(s[i], s[j])
  {
  }

  lemma FlagsDoNotScore(a: Candidate, b: Candidate, x: Candidate, y: Candidate)
    requires ScoresBefore(x, y) && a.total == x.total && a.memoryId == x.memoryId && b.total == y.total && b.memoryId == y.memoryId
    ensures ScoresBefore(a, b)
  {
  }

  ghost function UnflaggedCandidate(cs: seq<Candidate>, selected: seq<string>, x: Candidate): (r: Candidate)
    requires x in Flag(cs, selected)
    ensures r in cs && r.total == x.total && r.memoryId == x.memoryId && r.eligible == x.eligible && x.selected == (x.memoryId in selected)
  {
    var flagged := Flag(cs, selected);
    var i :| 0 <= i < |flagged| && flagged[i] == x;
    cs[i]
  }

  // ----- Excluded memories do not matter -----

  function EligibleMemories(q: Query, ms: seq<Memory>): seq<Memory> {
    if ms == [] then []
    else if IsEligible(q, ms[0]) then [ms[0]] + EligibleMemories(q, ms[1..])
    else EligibleMemories(q, ms[1..])
  }

  lemma {:induction false} ScoringEligibleOnly(c: Config, score: Scoring, q: Query, ms: seq<Memory>)
    ensures EligibleOf(ScoreAll(c, score, q, ms)) == ScoreAll(c, score, q, EligibleMemories(q, ms))
  {
    hide ExclusionReason;
    if ms != [] {
      ScoringEligibleOnly(c, score, q, ms[1..]);
      assert ScoreAll(c, score, q, ms)[1..] == ScoreAll(c, score, q, ms[1..]);
    }
  }

  /** Deleting excluded memories, or changing them while they stay excluded, changes no selection. */
  lemma ExcludedDoNotMatter(c: Config, score: Scoring, q: Query, ms: seq<Memory>, ns: seq<Memory>, k: nat)
    requires DistinctMemories(ms) && DistinctMemories(ns) && EligibleMemories(q, ms) == EligibleMemories(q, ns)
    ensures RankSpec(c, score, q, ms, k).selectedIds == RankSpec(c, score, q, ns, k).selectedIds
  {
    hide RankSpec, DistinctMemories, RecordValid, SortBy, EligibleOf, EligibleMemories, ScoreAll;
    RankMeetsSpecification(c, score, q, ms, k);
    RankMeetsSpecification(c, score, q, ns, k);
    ScoringEligibleOnly(c, score, q, ms);
    ScoringEligibleOnly(c, score, q, ns);
  }

  // ----- Committing an audit record -----

  datatype CommitResult = Committed | WrongConfig | Collision | UnknownSelection

  function FindRecord(records: seq<RetrievalRecord>, id: RetrievalId): (r: Option<RetrievalRecord>)
    ensures r.Some? ==> r.value in records && r.value.id == id
  {
    if records == [] then None
    else if records[0].id == id then Some(records[0])
    else FindRecord(records[1..], id)
  }

  /** The record is appended before its accesses, which may still fail on an unknown memory. */
  function CommitSpec(c: Config, s: Store, records: seq<RetrievalRecord>, r: RetrievalRecord): (CommitResult, Store, seq<RetrievalRecord>) {
    if r.id.configId != c.configId then (WrongConfig, s, records)
    else
      var existing := FindRecord(records, r.id);
      if existing.Some? then (if existing.value == r then Committed else Collision, s, records)
      else
        var (ok, after) := RecordSpec(s, r.id, r.selectedIds, r.id.query.day);
        (if ok then Committed else UnknownSelection, after, records + [r])
  }

  class RetrievalEngine {
    const store: EpisodeStore
    const config: Config
    const score: Scoring
    var records: seq<RetrievalRecord>

    constructor (store: EpisodeStore, config: Config, score: Scoring, records: seq<RetrievalRecord>)
      ensures this.store == store && this.config == config && this.score == score && this.records == records
    {
      this.store := store;
      this.config := config;
      this.score := score;
      this.records := records;
    }

    /** Scores every stored episode and identifies the top k; changes nothing. `None` is a top k below one
        or a record that fails its own checks. */
    method Rank(q: Query, topK: Option<int>) returns (r: Option<RetrievalRecord>)
      ensures var k := if topK.None? || topK.value == 0 then config.topK else topK.value;
              r == if k >= 1 && RecordValid(RankSpec(config, score, q, All(store.State()), k))
                   then Some(RankSpec(config, score, q, All(store.State()), k)) else None
    {
      hide SortBy, ScoreAll, ScoreOne, EligibleOf, RecordValid, Get, Flag, Ids, FirstK, RanksBefore, All;
      var k := if topK.None? || topK.value == 0 then config.topK else topK.value;
      if k < 1 {
        return None;
      }
      var memories := All(store.State());
      var provisional := [];
      for i := 0 to |memories|
        invariant provisional == ScoreAll(config, score, q, memories)[..i]
      {
        provisional := provisional + [ScoreOne(config, score, q, memories[i])];
      }
      assert provisional == ScoreAll(config, score, q, memories);
      var ranked := SortBy(RanksBefore, provisional);
      var selected := FirstK(Ids(EligibleOf(ranked)), k);
      var candidates := Flag(ranked, selected);
      var record := RetrievalRecord(RetrievalId(q, config.configId, config.policy, k, Ids(candidates)), candidates, selected);
      return if RecordValid(record) then Some(record) else None;
    }

    method Commit(r: RetrievalRecord) returns (result: CommitResult)
      modifies this, store
      ensures (result, store.State(), records) == CommitSpec(config, old(store.State()), old(records), r)
    {
      hide RecordSpec, FindRecord;
      if r.id.configId != config.configId {
        return WrongConfig;
      }
      var existing := FindRecord(records, r.id);
      if existing.Some? {
        return if existing.value == r then Committed else Collision;
      }
      records := records + [r];
      var ok := store.RecordRetrieval(r.id, r.selectedIds, r.id.query.day);
      return if ok then Committed else UnknownSelection;
    }
  }
}
