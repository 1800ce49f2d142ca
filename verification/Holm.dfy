/** Holm's step-down adjustment of a family of p-values, by one running maximum, against closed testing. */
module Holm {
  import opened Wrappers
  import opened Ordering

  /** An untestable hypothesis has no p-value but stays in the family. */
  datatype Hypothesis = Hypothesis(id: string, p: Option<real>)

  datatype Row = Row(id: string, raw: Option<real>, adjusted: Option<real>, reject: bool, familySize: nat)

  datatype HolmResult = Adjusted(rows: seq<Row>) | EmptyFamily | BadAlpha | BadPValue

  /** An untestable hypothesis counts as if its p-value were one. */
  function PValue(h: Hypothesis): real {
    h.p.GetOr(Some(1.0)).value
  }

  function Times(n: int, x: real): real {
    n as real * x
  }

  function MinReal(a: real, b: real): real {
    if a <= b then a else b
  }

  function MaxReal(a: real, b: real): real {
    if a >= b then a else b
  }

  predicate IsProbability(h: Hypothesis) {
    0.0 <= PValue(h) <= 1.0
  }

  predicate DistinctIds(family: seq<Hypothesis>) {
    forall i, j | 0 <= i < j < |family| :: family[i].id != family[j].id
  }

  ghost function Members(family: seq<Hypothesis>): set<Hypothesis> {
    set h | h in family
  }

  // ----- Closed testing -----

  /** `least` has the smallest p-value in `s`. */
  ghost predicate IsSmallest(s: set<Hypothesis>, least: Hypothesis) {
    least in s && forall h | h in s :: PValue(least) <= PValue(h)
  }

  /** The Bonferroni value of the joint hypothesis that all of `s` hold, whose smallest p-value is `least`'s. */
  function Bonferroni(s: set<Hypothesis>, least: Hypothesis): real {
    MinReal(1.0, Times(|s|, PValue(least)))
  }

  /** `v` is the largest Bonferroni value of the subsets of the family that contain `h`. */
  ghost predicate IsClosedTest(family: seq<Hypothesis>, h: Hypothesis, v: real) {
    && (forall s, least | s <= Members(family) && h in s && IsSmallest(s, least) :: Bonferroni(s, least) <= v)
    && (exists s, least | s <= Members(family) && h in s && IsSmallest(s, least) :: Bonferroni(s, least) == v)
  }

  lemma ClosedTestIsUnique(family: seq<Hypothesis>, h: Hypothesis, v: real, w: real)
    requires IsClosedTest(family, h, v) && IsClosedTest(family, h, w)
    ensures v == w
  {
    var s, least :| s <= Members(family) && h in s && IsSmallest(s, least) && Bonferroni(s, least) == v;
    var t, other :| t <= Members(family) && h in t && IsSmallest(t, other) && Bonferroni(t, other) == w;
    assert Bonferroni(s, least) <= w && Bonferroni(t, other) <= v;
  }

  lemma SmallestExists(s: set<Hypothesis>) returns (least: Hypothesis)
    requires s != {}
    ensures IsSmallest(s, least)
    decreases s
  {
    var h :| h in s;
    if s == {h} {
      least := h;
    } else {
      var other := SmallestExists(s - {h});
      least := if PValue(h) <= PValue(other) then h else other;
      forall g | g in s ensures PValue(least) <= PValue(g) {
        if g != h {
          assert g in s - {h};
        }
      }
    }
  }

  // ----- The step-down rule -----

  function Valid(family: seq<Hypothesis>): (r: seq<Hypothesis>) {
    if family == [] then []
    else if family[0].p.Some? then [family[0]] + Valid(family[1..])
    else Valid(family[1..])
  }

  lemma {:induction false} ValidListed(family: seq<Hypothesis>)
    ensures forall h :: h in Valid(family) <==> h in family && h.p.Some?
    ensures DistinctIds(family) ==> DistinctIds(Valid(family)) && |Valid(family)| <= |family|
  {
    if family != [] {
      assert family == [family[0]] + family[1..];
      ValidListed(family[1..]);
    }
  }

  predicate ByPThenId(a: Hypothesis, b: Hypothesis) {
    PValue(a) < PValue(b) || (PValue(a) == PValue(b) && AtMost(a.id, b.id))
  }

  function Candidate(n: nat, sorted: seq<Hypothesis>, k: nat): real
    requires k < |sorted|
  {
    MinReal(1.0, Times(n - k, PValue(sorted[k])))
  }

  /** The running maximum over the first `k` ranks. */
  function RunningMax(n: nat, sorted: seq<Hypothesis>, k: nat): real
    requires k <= |sorted|
  {
    if k == 0 then 0.0 else MaxReal(RunningMax(n, sorted, k - 1), Candidate(n, sorted, k - 1))
  }

  /** A listing of the testable members with ascending p-values; ties may come in any order. */
  ghost predicate IsAscending(family: seq<Hypothesis>, sorted: seq<Hypothesis>) {
    && Distinct(sorted)
    && (forall h :: h in sorted <==> h in family && h.p.Some?)
    && (forall i, j | 0 <= i <= j < |sorted| :: PValue(sorted[i]) <= PValue(sorted[j]))
  }

  /** The family without the first `k` ranks. */
  ghost function Rest(family: seq<Hypothesis>, sorted: seq<Hypothesis>, k: nat): set<Hypothesis>
    requires k <= |sorted|
  {
    Members(family) - Members(sorted[..k])
  }

  lemma RestSize(family: seq<Hypothesis>, sorted: seq<Hypothesis>, k: nat)
    requires DistinctIds(family) && IsAscending(family, sorted) && k <= |sorted|
    ensures |Rest(family, sorted, k)| == |family| - k
  {
    assert Distinct(family);
    assert Distinct(sorted[..k]);
    DistinctLength(family);
    DistinctLength(sorted[..k]);
    var all, first := Members(family), Members(sorted[..k]);
    forall h | h in first ensures h in all {
      assert h in sorted;
    }
    assert all == first + Rest(family, sorted, k) && first !! Rest(family, sorted, k);
  }

  lemma {:induction false} RunningMaxIsLargest(n: nat, sorted: seq<Hypothesis>, k: nat, i: nat)
    requires i < k <= |sorted|
    ensures Candidate(n, sorted, i) <= RunningMax(n, sorted, k)
  {
    if i < k - 1 {
      RunningMaxIsLargest(n, sorted, k - 1, i);
    }
  }

  lemma {:induction false} RunningMaxIsReached(n: nat, sorted: seq<Hypothesis>, k: nat) returns (i: nat)
    requires 0 < k <= |sorted| <= n && forall j | 0 <= j < |sorted| :: IsProbability(sorted[j])
    ensures i < k && Candidate(n, sorted, i) == RunningMax(n, sorted, k)
  {
    i := k - 1;
    assert Candidate(n, sorted, k - 1) >= 0.0;
    if k > 1 && RunningMax(n, sorted, k - 1) > Candidate(n, sorted, k - 1) {
      i := RunningMaxIsReached(n, sorted, k - 1);
    }
  }

  lemma RankIsLeft(family: seq<Hypothesis>, sorted: seq<Hypothesis>, i: nat, k: nat)
    requires IsAscending(family, sorted) && i <= k < |sorted|
    ensures sorted[k] in Rest(family, sorted, i) && sorted[k] in family
  {
    hide PValue;
    assert sorted[k] in sorted;
  }

  lemma SmallestLeft(family: seq<Hypothesis>, sorted: seq<Hypothesis>, i: nat)
    requires IsAscending(family, sorted) && i < |sorted| && forall h | h in family :: IsProbability(h)
    ensures IsSmallest(Rest(family, sorted, i), sorted[i])
  {
    RankIsLeft(family, sorted, i, i);
    forall h | h in Rest(family, sorted, i) ensures PValue(sorted[i]) <= PValue(h) {
      if h in sorted {
        var j :| 0 <= j < |sorted| && sorted[j] == h;
        LeftHasLaterRank(family, sorted, i, j);
      } else {
        assert IsProbability(sorted[i]);
      }
    }
  }

  lemma LeftHasLaterRank(family: seq<Hypothesis>, sorted: seq<Hypothesis>, i: nat, j: nat)
    requires i < |sorted| && j < |sorted| && sorted[j] in Rest(family, sorted, i)
    ensures i <= j
  {
    forall m | 0 <= m < i ensures sorted[m] in sorted[..i] {
      assert sorted[..i][m] == sorted[m];
    }
  }

  /** What is left from rank `i` on is a joint hypothesis whose smallest p-value has rank `i`. */
  lemma RestIsJoint(family: seq<Hypothesis>, sorted: seq<Hypothesis>, i: nat, k: nat)
    requires DistinctIds(family) && IsAscending(family, sorted) && i <= k < |sorted| && forall h | h in family :: IsProbability(h)
    ensures var s := Rest(family, sorted, i);
            && s <= Members(family) && sorted[k] in s && IsSmallest(s, sorted[i])
            && Bonferroni(s, sorted[i]) == Candidate(|family|, sorted, i)
  {
    hide IsAscending, IsProbability, IsSmallest, PValue, MinReal, Times;
    RestSize(family, sorted, i);
    RankIsLeft(family, sorted, i, k);
    SmallestLeft(family, sorted, i);
  }

  lemma JointLeavesOut(family: seq<Hypothesis>, sorted: seq<Hypothesis>, s: set<Hypothesis>, i: nat)
    requires DistinctIds(family) && IsAscending(family, sorted) && i < |sorted| && s <= Members(family)
    requires forall j | 0 <= j < i :: sorted[j] !in s
    ensures |s| <= |family| - i
  {
    hide IsAscending;
    assert s <= Rest(family, sorted, i);
    RestSize(family, sorted, i);
    SubsetIsNoLarger(s, Rest(family, sorted, i));
  }

  /** No joint hypothesis containing rank `k` has a larger value than a candidate up to rank `k`. */
  lemma JointIsBounded(family: seq<Hypothesis>, sorted: seq<Hypothesis>, k: nat, s: set<Hypothesis>, least: Hypothesis)
    requires DistinctIds(family) && IsAscending(family, sorted) && k < |sorted| && forall h | h in family :: IsProbability(h)
    requires s <= Members(family) && sorted[k] in s && IsSmallest(s, least)
    ensures Bonferroni(s, least) <= RunningMax(|family|, sorted, k + 1)
  {
    hide IsAscending, PValue, RunningMax, DistinctIds, Times;
    var i := FirstRank(sorted, s, k);
    JointLeavesOut(family, sorted, s, i);
    assert PValue(least) <= PValue(sorted[i]);
    assert least in family;
    assert IsProbability(least);
    SmallerProduct(|s|, |family| - i, PValue(least), PValue(sorted[i]));
    RunningMaxIsLargest(|family|, sorted, k + 1, i);
  }

  lemma SmallerProduct(a: nat, b: nat, x: real, y: real)
    requires a <= b && 0.0 <= x <= y
    ensures Times(a, x) <= Times(b, y)
  {
    assert a as real * x <= a as real * y;
    assert a as real * y <= b as real * y;
  }

  /** The first rank that a joint hypothesis contains. */
  lemma FirstRank(sorted: seq<Hypothesis>, s: set<Hypothesis>, k: nat) returns (i: nat)
    requires k < |sorted| && sorted[k] in s
    ensures i <= k && sorted[i] in s && forall j | 0 <= j < i :: sorted[j] !in s
  {
    i := 0;
    while sorted[i] !in s
      invariant i <= k && forall j | 0 <= j < i :: sorted[j] !in s
      decreases k - i
    {
      i := i + 1;
    }
  }

  /** The running maximum is the closed test, whichever way ties are ordered. */
  lemma RunningMaxIsClosedTest(family: seq<Hypothesis>, sorted: seq<Hypothesis>, k: nat)
    requires DistinctIds(family) && IsAscending(family, sorted) && k < |sorted| && forall h | h in family :: IsProbability(h)
    ensures IsClosedTest(family, sorted[k], RunningMax(|family|, sorted, k + 1))
  {
    var v := RunningMax(|family|, sorted, k + 1);
    forall s, least | s <= Members(family) && sorted[k] in s && IsSmallest(s, least) ensures Bonferroni(s, least) <= v {
      JointIsBounded(family, sorted, k, s, least);
    }
    RestSize(family, sorted, |sorted|);
    forall j | 0 <= j < |sorted| ensures IsProbability(sorted[j]) {
      assert sorted[j] in sorted;
    }
    var i := RunningMaxIsReached(|family|, sorted, k + 1);
    RestIsJoint(family, sorted, i, k);
  }

  /** Alone, an untestable hypothesis already has the value one, so it is never rejected. */
  lemma UntestableClosedTest(family: seq<Hypothesis>, h: Hypothesis)
    requires h in family && h.p.None?
    ensures IsClosedTest(family, h, 1.0)
  {
    assert IsSmallest({h}, h) && Bonferroni({h}, h) == 1.0;
  }

  predicate PassesThreshold(n: nat, sorted: seq<Hypothesis>, i: nat, alpha: real)
    requires i < |sorted|
  {
    Times(n - i, PValue(sorted[i])) < alpha
  }

  /** Rejection is the step-down rule: every rank so far passes its own threshold. */
  lemma {:induction false} RejectionIsStepDown(n: nat, sorted: seq<Hypothesis>, k: nat, alpha: real)
    requires k < |sorted| <= n && 0.0 < alpha < 1.0
    ensures RunningMax(n, sorted, k + 1) < alpha <==> forall i | 0 <= i <= k :: PassesThreshold(n, sorted, i, alpha)
  {
    assert Candidate(n, sorted, k) < alpha <==> PassesThreshold(n, sorted, k, alpha);
    hide Candidate, PassesThreshold;
    if k > 0 {
      RejectionIsStepDown(n, sorted, k - 1, alpha);
    } else {
      assert RunningMax(n, sorted, 0) == 0.0;
    }
  }

  /** Two listings that break ties differently adjust every hypothesis alike. */
  lemma TieOrderDoesNotMatter(family: seq<Hypothesis>, a: seq<Hypothesis>, b: seq<Hypothesis>, i: nat, j: nat)
    requires DistinctIds(family) && IsAscending(family, a) && IsAscending(family, b) && forall h | h in family :: IsProbability(h)
    requires i < |a| && j < |b| && a[i] == b[j]
    ensures RunningMax(|family|, a, i + 1) == RunningMax(|family|, b, j + 1)
  {
    RunningMaxIsClosedTest(family, a, i);
    RunningMaxIsClosedTest(family, b, j);
    ClosedTestIsUnique(family, a[i], RunningMax(|family|, a, i + 1), RunningMax(|family|, b, j + 1));
  }

  // ----- The adjustment -----

  lemma ByPThenIdIsTotalPreorder()
    ensures TotalPreorder(ByPThenId)
  {
    AtMostIsTotalPreorder();
    forall a: Hypothesis, b: Hypothesis ensures ByPThenId(a, b) || ByPThenId(b, a) {
      assert AtMost(a.id, b.id) || AtMost(b.id, a.id);
    }
    forall a: Hypothesis, b: Hypothesis, c: Hypothesis | ByPThenId(a, b) && ByPThenId(b, c) ensures ByPThenId(a, c) {
      if AtMost(a.id, b.id) && AtMost(b.id, c.id) {
        assert AtMost(a.id, c.id);
      }
    }
  }

  predicate ById(a: Hypothesis, b: Hypothesis) {
    AtMost(a.id, b.id)
  }

  lemma ByIdIsTotalPreorder()
    ensures TotalPreorder(ById)
  {
    AtMostIsTotalPreorder();
    forall a: Hypothesis, b: Hypothesis ensures ById(a, b) || ById(b, a) {
      assert AtMost(a.id, b.id) || AtMost(b.id, a.id);
    }
    forall a: Hypothesis, b: Hypothesis, c: Hypothesis | ById(a, b) && ById(b, c) ensures ById(a, c) {
      assert AtMost(a.id, b.id) && AtMost(b.id, c.id);
    }
  }

  lemma PermutedIds(valid: seq<Hypothesis>, sorted: seq<Hypothesis>)
    requires DistinctIds(valid) && Distinct(sorted) && forall h :: h in sorted <==> h in valid
    ensures DistinctIds(sorted)
  {
    forall i, j | 0 <= i < j < |sorted| ensures sorted[i].id != sorted[j].id {
      assert sorted[i] in valid && sorted[j] in valid && sorted[i] != sorted[j];
      if sorted[i].id == sorted[j].id {
        SameIdSameMember(valid, sorted[i], sorted[j]);
        assert false;
      }
    }
  }

  lemma SortedAscends(sorted: seq<Hypothesis>)
    requires SortedBy(ByPThenId, sorted)
    ensures forall i, j | 0 <= i <= j < |sorted| :: PValue(sorted[i]) <= PValue(sorted[j])
  {
    hide AtMost, PValue;
    forall i, j | 0 <= i <= j < |sorted| ensures PValue(sorted[i]) <= PValue(sorted[j]) {
      if i < j {
        assert ByPThenId(sorted[i], sorted[j]);
      }
    }
  }

  lemma SameMembers(valid: seq<Hypothesis>, sorted: seq<Hypothesis>)
    requires multiset(sorted) == multiset(valid)
    ensures forall h :: h in sorted <==> h in valid
    ensures |sorted| == |valid|
  {
    forall h ensures h in sorted <==> h in valid {
      assert h in multiset(sorted) <==> h in multiset(valid);
    }
    assert |multiset(sorted)| == |multiset(valid)|;
  }

  lemma SortedIsAscending(family: seq<Hypothesis>)
    requires DistinctIds(family)
    ensures IsAscending(family, SortBy(ByPThenId, Valid(family))) && |SortBy(ByPThenId, Valid(family))| <= |family|
    ensures DistinctIds(SortBy(ByPThenId, Valid(family)))
  {
    hide SortBy, SortedBy, Valid, Distinct, DistinctIds, PValue, ByPThenId;
    var valid := Valid(family);
    var sorted := SortBy(ByPThenId, valid);
    ValidListed(family);
    ByPThenIdIsTotalPreorder();
    SortByCorrect(ByPThenId, valid);
    DistinctIdsAreDistinct(valid);
    PermutationKeepsDistinct(valid, sorted);
    SameMembers(valid, sorted);
    PermutedIds(valid, sorted);
    SortedAscends(sorted);
  }

  lemma DistinctIdsAreDistinct(s: seq<Hypothesis>)
    requires DistinctIds(s)
    ensures Distinct(s)
  {
  }

  /** One output row: the closed test of its hypothesis, rejected strictly below `alpha`. */
  ghost predicate RowIsRight(family: seq<Hypothesis>, alpha: real, h: Hypothesis, row: Row) {
    && row.id == h.id && row.raw == h.p && row.familySize == |family|
    && (row.adjusted.Some? <==> h.p.Some?)
    && IsClosedTest(family, h, row.adjusted.GetOr(Some(1.0)).value)
    && (row.reject <==> row.adjusted.GetOr(Some(1.0)).value < alpha)
  }

  ghost predicate AdjustedSoFar(family: seq<Hypothesis>, sorted: seq<Hypothesis>, n: nat, adjusted: map<string, real>)
    requires n <= |sorted|
  {
    && adjusted.Keys == (set k | 0 <= k < n :: sorted[k].id)
    && forall k | 0 <= k < n :: adjusted[sorted[k].id] == RunningMax(|family|, sorted, k + 1)
  }

  /** One row for every member in order of identifier. */
  method HolmAdjust(family: seq<Hypothesis>, alpha: real) returns (r: HolmResult)
    requires DistinctIds(family)
    ensures r.EmptyFamily? <==> family == []
    ensures r.BadAlpha? <==> family != [] && !(0.0 < alpha < 1.0)
    ensures r.BadPValue? <==> family != [] && 0.0 < alpha < 1.0 && exists h | h in family :: !IsProbability(h)
    ensures r.Adjusted? ==>
              var members := SortBy(ById, family);
              && multiset(members) == multiset(family) && SortedBy(ById, members) && |r.rows| == |members|
              && forall k | 0 <= k < |members| :: RowIsRight(family, alpha, members[k], r.rows[k])
  {
    hide IsClosedTest, IsProbability, IsAscending, AdjustedSoFar, DistinctIds, SortBy, SortedBy, Valid, PValue, ById;
    if family == [] {
      return EmptyFamily;
    }
    if !(0.0 < alpha < 1.0) {
      return BadAlpha;
    }
    if exists h | h in family :: !IsProbability(h) {
      return BadPValue;
    }
    SortedIsAscending(family);
    var sorted := SortBy(ByPThenId, Valid(family));
    var adjusted := AdjustAll(family, sorted);
    ByIdIsTotalPreorder();
    SortByCorrect(ById, family);
    var members := SortBy(ById, family);
    var rows := [];
    for i := 0 to |members|
      invariant |rows| == i && forall k | 0 <= k < i :: RowIsRight(family, alpha, members[k], rows[k])
    {
      var h := members[i];
      assert h in multiset(members);
      RowsAreRight(family, sorted, adjusted, h);
      var value := if h.id in adjusted then Some(adjusted[h.id]) else None;
      rows := rows + [Row(h.id, h.p, value, value.GetOr(Some(1.0)).value < alpha, |family|)];
    }
    return Adjusted(rows);
  }

  /** The running-maximum loop. */
  method AdjustAll(family: seq<Hypothesis>, sorted: seq<Hypothesis>) returns (adjusted: map<string, real>)
    requires DistinctIds(sorted) && |sorted| <= |family|
    ensures AdjustedSoFar(family, sorted, |sorted|, adjusted)
  {
    adjusted := map[];
    var runningMax := 0.0;
    for rank := 0 to |sorted|
      invariant runningMax == RunningMax(|family|, sorted, rank)
      invariant AdjustedSoFar(family, sorted, rank, adjusted)
    {
      var candidate := MinReal(1.0, Times(|family| - rank, PValue(sorted[rank])));
      runningMax := MaxReal(runningMax, candidate);
      adjusted := adjusted[sorted[rank].id := runningMax];
    }
  }

  lemma RowsAreRight(family: seq<Hypothesis>, sorted: seq<Hypothesis>, adjusted: map<string, real>, h: Hypothesis)
    requires DistinctIds(family) && IsAscending(family, sorted) && h in family && forall g | g in family :: IsProbability(g)
    requires AdjustedSoFar(family, sorted, |sorted|, adjusted)
    ensures h.id in adjusted <==> h.p.Some?
    ensures h.id in adjusted ==> IsClosedTest(family, h, adjusted[h.id])
    ensures h.id !in adjusted ==> IsClosedTest(family, h, 1.0)
  {
    if h.p.Some? {
      assert h in sorted;
      var k :| 0 <= k < |sorted| && sorted[k] == h;
      RunningMaxIsClosedTest(family, sorted, k);
    } else {
      if h.id in adjusted {
        var k :| 0 <= k < |sorted| && sorted[k].id == h.id;
        assert sorted[k] in sorted;
        SameIdSameMember(family, sorted[k], h);
        assert false;
      }
      UntestableClosedTest(family, h);
    }
  }

  lemma SameIdSameMember(family: seq<Hypothesis>, g: Hypothesis, h: Hypothesis)
    requires DistinctIds(family) && g in family && h in family && g.id == h.id
    ensures g == h
  {
    var i :| 0 <= i < |family| && family[i] == g;
    var j :| 0 <= j < |family| && family[j] == h;
  }
}
