/** The append-only ledger of beliefs, each version citing stored episodes. */
module Beliefs {
  import opened Wrappers
  import opened Ordering
  import opened World
  import opened Episodes

  datatype UpdateSource = DeterministicEvidence | ValidatedProposal

  datatype Belief = Belief(
    beliefId: string,
    relationshipId: string,
    active: Option<bool>,
    romantic: Option<bool>,
    reciprocal: Option<bool>,
    reliability: real,
    expected: real,
    confidence: real,
    supporting: seq<string>,
    contradicting: seq<string>,
    lastDay: nat,
    source: UpdateSource)

  /** The checks a belief passes when it is read back. */
  predicate BeliefValid(b: Belief) {
    && Distinct(b.supporting) && Distinct(b.contradicting)
    && (forall id | id in b.supporting :: id !in b.contradicting)
    && (b.supporting == [] && b.contradicting == [] ==> b.confidence == 0.0)
    && b.lastDay <= LAST_DAY
  }

  function BeliefIdOf(relationshipId: string): string {
    "belief-" + relationshipId
  }

  function InitialBelief(relationshipId: string): Belief {
    Belief(BeliefIdOf(relationshipId), relationshipId, None, None, None, 0.5, 0.5, 0.0, [], [], 0, DeterministicEvidence)
  }

  function Confidence(supporting: nat, contradicting: nat): real {
    var total := supporting + contradicting;
    var margin := if supporting >= contradicting then supporting - contradicting else contradicting - supporting;
    if total == 0 then 0.0 else margin as real / total as real
  }

  /** Links new evidence; fails when an episode would both support and contradict. */
  function UpdateEvidence(b: Belief, day: nat, supporting: seq<string>, contradicting: seq<string>): Option<Belief> {
    var support := SortedIds(b.supporting + supporting);
    var contradict := SortedIds(b.contradicting + contradicting);
    if exists id | id in support :: id in contradict then None
    else Some(b.(supporting := support, contradicting := contradict, confidence := Confidence(|support|, |contradict|),
                 lastDay := day, source := DeterministicEvidence))
  }

  // ----- The ledger -----

  datatype BeliefResult = Added | Unchanged | UnknownEvidence | BackwardInTime | DiscardsEvidence

  function Current(versions: seq<Belief>, id: string): Option<Belief> {
    if versions == [] then None
    else if versions[|versions| - 1].beliefId == id then Some(versions[|versions| - 1])
    else Current(versions[..|versions| - 1], id)
  }

  predicate CitesKnown(episodes: seq<Memory>, b: Belief) {
    && (forall id | id in b.supporting :: Find(episodes, id).Some?)
    && (forall id | id in b.contradicting :: Find(episodes, id).Some?)
  }

  function AddSpec(episodes: seq<Memory>, versions: seq<Belief>, b: Belief): (BeliefResult, seq<Belief>) {
    if !CitesKnown(episodes, b) then (UnknownEvidence, versions)
    else
      var previous := Current(versions, b.beliefId);
      if previous.None? then (Added, versions + [b])
      else if previous.value == b then (Unchanged, versions)
      else if b.lastDay < previous.value.lastDay then (BackwardInTime, versions)
      else if !IsSubset(previous.value.supporting, b.supporting) || !IsSubset(previous.value.contradicting, b.contradicting)
      then (DiscardsEvidence, versions)
      else (Added, versions + [b])
  }

  function ReplayBeliefs(episodes: seq<Memory>, versions: seq<Belief>): Option<seq<Belief>> {
    if versions == [] then Some([])
    else
      var before := ReplayBeliefs(episodes, versions[..|versions| - 1]);
      if before.None? then None
      else
        var (result, after) := AddSpec(episodes, before.value, versions[|versions| - 1]);
        if result.Added? || result.Unchanged? then Some(after) else None
  }

  function RestoreBeliefs(episodes: seq<Memory>, versions: seq<Belief>): Option<seq<Belief>> {
    if !(forall b | b in versions :: BeliefValid(b)) then None else ReplayBeliefs(episodes, versions)
  }

  // ----- What holds of every reachable ledger -----

  predicate AddedAt(episodes: seq<Memory>, versions: seq<Belief>, i: nat)
    requires i < |versions|
  {
    AddSpec(episodes, versions[..i], versions[i]).0 == Added
  }

  ghost predicate LedgerOk(episodes: seq<Memory>, versions: seq<Belief>) {
    && (forall b | b in versions :: BeliefValid(b))
    && (forall i | 0 <= i < |versions| :: AddedAt(episodes, versions, i))
  }

  /** Later episodes do not disturb what was cited before. */
  ghost predicate KeepsKnown(before: seq<Memory>, after: seq<Memory>) {
    forall id :: Find(before, id).Some? ==> Find(after, id).Some?
  }

  lemma MoreEpisodesKeepLedger(before: seq<Memory>, after: seq<Memory>, versions: seq<Belief>)
    requires LedgerOk(before, versions) && KeepsKnown(before, after)
    ensures LedgerOk(after, versions)
  {
    hide BeliefValid, Find, Current;
    forall i | 0 <= i < |versions| ensures AddedAt(after, versions, i) {
      assert AddedAt(before, versions, i);
    }
  }

  lemma AddKeepsLedger(episodes: seq<Memory>, versions: seq<Belief>, b: Belief)
    requires LedgerOk(episodes, versions) && BeliefValid(b)
    ensures LedgerOk(episodes, AddSpec(episodes, versions, b).1)
    ensures versions <= AddSpec(episodes, versions, b).1
  {
    hide BeliefValid, Find, Current, CitesKnown, IsSubset;
    var (result, after) := AddSpec(episodes, versions, b);
    if result.Added? {
      forall i | 0 <= i < |after| ensures AddedAt(episodes, after, i) {
        if i < |versions| {
          assert AddedAt(episodes, versions, i);
          assert after[..i] == versions[..i];
        } else {
          assert after[..i] == versions;
        }
      }
    }
  }

  lemma {:induction false} BeliefsReplay(episodes: seq<Memory>, versions: seq<Belief>, n: nat)
    requires LedgerOk(episodes, versions) && n <= |versions|
    ensures ReplayBeliefs(episodes, versions[..n]) == Some(versions[..n])
  {
    hide BeliefValid, Find, Current, CitesKnown, IsSubset;
    if n > 0 {
      assert versions[..n][..n - 1] == versions[..n - 1];
      BeliefsReplay(episodes, versions, n - 1);
      assert AddedAt(episodes, versions, n - 1);
      assert versions[..n] == versions[..n - 1] + [versions[n - 1]];
    }
  }

  /** Replaying a reachable ledger through its own checks accepts every version and drops none. */
  lemma BeliefsRoundTrip(episodes: seq<Memory>, versions: seq<Belief>)
    requires LedgerOk(episodes, versions)
    ensures RestoreBeliefs(episodes, versions) == Some(versions)
  {
    hide BeliefValid, AddedAt, ReplayBeliefs;
    assert versions[..|versions|] == versions;
    BeliefsReplay(episodes, versions, |versions|);
  }

  /** Updated evidence passes the checks of a belief that is read back. */
  lemma UpdateIsValid(b: Belief, day: nat, supporting: seq<string>, contradicting: seq<string>)
    requires BeliefValid(b) && day <= LAST_DAY && UpdateEvidence(b, day, supporting, contradicting).Some?
    ensures BeliefValid(UpdateEvidence(b, day, supporting, contradicting).value)
  {
    hide SortedIds;
    SortedIdsCorrect(b.supporting + supporting);
    SortedIdsCorrect(b.contradicting + contradicting);
  }

  /** An evidence update never discards evidence. */
  lemma UpdateKeepsEvidence(b: Belief, day: nat, supporting: seq<string>, contradicting: seq<string>)
    requires UpdateEvidence(b, day, supporting, contradicting).Some?
    ensures var u := UpdateEvidence(b, day, supporting, contradicting).value;
            && u.beliefId == b.beliefId && u.lastDay == day
            && IsSubset(b.supporting, u.supporting) && IsSubset(b.contradicting, u.contradicting)
            && IsSubset(supporting, u.supporting) && IsSubset(contradicting, u.contradicting)
  {
    hide SortedIds, Confidence;
    SortedIdsCorrect(b.supporting + supporting);
    SortedIdsCorrect(b.contradicting + contradicting);
  }

  class BeliefLedger {
    const store: EpisodeStore
    var versions: seq<Belief>

    constructor (store: EpisodeStore)
      ensures this.store == store && versions == []
    {
      this.store := store;
      versions := [];
    }

    method Append(b: Belief) returns (r: BeliefResult)
      modifies this
      ensures (r, versions) == AddSpec(store.episodes, old(versions), b)
    {
      hide Find, Current;
      if !CitesKnown(store.episodes, b) {
        return UnknownEvidence;
      }
      var previous := Current(versions, b.beliefId);
      if previous.Some? {
        if previous.value == b {
          return Unchanged;
        }
        if b.lastDay < previous.value.lastDay {
          return BackwardInTime;
        }
        if !IsSubset(previous.value.supporting, b.supporting) || !IsSubset(previous.value.contradicting, b.contradicting) {
          return DiscardsEvidence;
        }
      }
      versions := versions + [b];
      return Added;
    }

    static method Restore(store: EpisodeStore, checkpoint: seq<Belief>) returns (ok: bool, ledger: BeliefLedger)
      ensures fresh(ledger) && ledger.store == store
      ensures ok <==> RestoreBeliefs(store.episodes, checkpoint).Some?
      ensures ok ==> ledger.versions == RestoreBeliefs(store.episodes, checkpoint).value
    {
      hide AddSpec, BeliefValid;
      ledger := new BeliefLedger(store);
      if !(forall b | b in checkpoint :: BeliefValid(b)) {
        return false, ledger;
      }
      for i := 0 to |checkpoint|
        invariant fresh(ledger) && ledger.store == store
        invariant ReplayBeliefs(store.episodes, checkpoint[..i]) == Some(ledger.versions)
      {
        assert checkpoint[..i + 1][..i] == checkpoint[..i];
        var r := ledger.Append(checkpoint[i]);
        if !r.Added? && !r.Unchanged? {
          BeliefsFailEarly(store.episodes, checkpoint, i + 1);
          return false, ledger;
        }
      }
      assert checkpoint[..|checkpoint|] == checkpoint;
      return true, ledger;
    }
  }

  lemma {:induction false} BeliefsFailEarly(episodes: seq<Memory>, versions: seq<Belief>, n: nat)
    requires n <= |versions| && ReplayBeliefs(episodes, versions[..n]).None?
    ensures ReplayBeliefs(episodes, versions).None?
    decreases |versions| - n
  {
    hide AddSpec;
    if n == |versions| {
      assert versions[..n] == versions;
    } else {
      assert versions[..n + 1][..n] == versions[..n];
      BeliefsFailEarly(episodes, versions, n + 1);
    }
  }
}
