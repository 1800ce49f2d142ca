/** The dependency graph of a workflow and its deterministic scheduling order. */
module Graph {
  import opened Ordering

  type TaskId = string

  /** For every task, its required dependencies followed by its optional ones. */
  type Dependencies = map<TaskId, seq<TaskId>>

  datatype TopologicalResult = Ordered(order: seq<TaskId>) | Cyclic

  /** Every dependency is declared, and no task names one twice. */
  predicate WellFormed(deps: Dependencies) {
    forall t | t in deps :: Distinct(deps[t]) && forall d | d in deps[t] :: d in deps
  }

  /** A walk from each task to one of its dependencies that returns to its start. */
  ghost predicate IsCycle(deps: Dependencies, walk: seq<TaskId>) {
    && |walk| >= 2
    && walk[0] == walk[|walk| - 1]
    && IsWalk(deps, walk)
  }

  ghost predicate IsWalk(deps: Dependencies, walk: seq<TaskId>) {
    forall i | 0 < i < |walk| :: StepsToDependency(deps, walk, i)
  }

  ghost predicate StepsToDependency(deps: Dependencies, walk: seq<TaskId>, i: nat)
    requires 0 < i < |walk|
  {
    walk[i - 1] in deps && walk[i] in deps[walk[i - 1]]
  }

  ghost predicate HasCycle(deps: Dependencies) {
    exists walk :: IsCycle(deps, walk)
  }

  /** `t` may be scheduled next once everything in `done` has been. */
  ghost predicate Available(deps: Dependencies, done: seq<TaskId>, t: TaskId) {
    t in deps && t !in done && forall d | d in deps[t] :: d in done
  }

  /** A permutation of the tasks in which each follows all its dependencies. */
  ghost predicate IsTopological(deps: Dependencies, order: seq<TaskId>) {
    && Distinct(order)
    && (forall t :: t in order <==> t in deps)
    && (forall k | 0 <= k < |order| :: FollowsItsDependencies(deps, order, k))
  }

  ghost predicate FollowsItsDependencies(deps: Dependencies, order: seq<TaskId>, k: nat)
    requires k < |order|
  {
    Available(deps, order[..k], order[k])
  }

  /** At every position stands the smallest task available there. */
  ghost predicate IsGreedy(deps: Dependencies, order: seq<TaskId>) {
    forall k | 0 <= k < |order| :: IsSmallestChoice(deps, order, k)
  }

  ghost predicate IsSmallestChoice(deps: Dependencies, order: seq<TaskId>, k: nat)
    requires k < |order|
  {
    forall t | Available(deps, order[..k], t) :: AtMost(order[k], t)
  }

  /** `a` is `b`, or is smaller at the first position where they differ. */
  ghost predicate LexicographicallyAtMost(a: seq<TaskId>, b: seq<TaskId>) {
    a == b || exists k | 0 <= k < |a| && k < |b| :: a[..k] == b[..k] && Before(a[k], b[k])
  }

  // ----- Counting unfinished dependencies -----

  function Remaining(ds: seq<TaskId>, done: set<TaskId>): nat {
    if ds == [] then 0 else (if ds[0] in done then 0 else 1) + Remaining(ds[1..], done)
  }

  lemma {:induction false} RemainingAfter(ds: seq<TaskId>, done: set<TaskId>, x: TaskId)
    requires Distinct(ds) && x !in done
    ensures Remaining(ds, done) == Remaining(ds, done + {x}) + (if x in ds then 1 else 0)
  {
    if ds != [] {
      assert ds == [ds[0]] + ds[1..];
      RemainingAfter(ds[1..], done, x);
    }
  }

  lemma {:induction false} RemainingZero(ds: seq<TaskId>, done: set<TaskId>)
    ensures Remaining(ds, done) == 0 <==> forall d | d in ds :: d in done
    ensures Remaining(ds, {}) == |ds|
  {
    if ds != [] {
      assert ds == [ds[0]] + ds[1..];
      RemainingZero(ds[1..], done);
    }
  }

  // ----- The scheduler's order -----

  function Dependents(deps: Dependencies, declared: seq<TaskId>, x: TaskId): (r: seq<TaskId>)
    requires forall t | t in declared :: t in deps
    ensures forall t :: t in r <==> t in declared && x in deps[t]
    ensures Distinct(declared) ==> Distinct(r)
  {
    if declared == [] then []
    else
      assert declared == [declared[0]] + declared[1..];
      var rest := Dependents(deps, declared[1..], x);
      if x in deps[declared[0]] then [declared[0]] + rest else rest
  }

  function WithoutDependencies(deps: Dependencies, declared: seq<TaskId>): (r: seq<TaskId>)
    requires forall t | t in declared :: t in deps
    ensures forall t :: t in r <==> t in declared && deps[t] == []
    ensures Distinct(declared) ==> Distinct(r)
  {
    if declared == [] then []
    else
      assert declared == [declared[0]] + declared[1..];
      var rest := WithoutDependencies(deps, declared[1..]);
      if deps[declared[0]] == [] then [declared[0]] + rest else rest
  }

  lemma SortedTaskIds(s: seq<TaskId>) returns (r: seq<TaskId>)
    ensures r == SortBy(AtMost, s) && SortedBy(AtMost, r) && |r| == |s|
    ensures forall x :: x in r <==> x in s
    ensures Distinct(s) ==> Distinct(r)
  {
    r := SortBy(AtMost, s);
    AtMostIsTotalPreorder();
    SortByCorrect(AtMost, s);
    forall x ensures x in r <==> x in s {
      assert x in r <==> x in multiset(r);
      assert x in s <==> x in multiset(s);
    }
    if Distinct(s) {
      PermutationKeepsDistinct(s, r);
    }
  }

  /** What is still countable: exactly the unordered tasks whose count reached zero. */
  ghost predicate AvailableIsExact(deps: Dependencies, indegree: map<TaskId, nat>, done: seq<TaskId>, available: seq<TaskId>) {
    && indegree.Keys == deps.Keys
    && Distinct(available) && SortedBy(AtMost, available)
    && (forall t :: t in available <==> t in deps && t !in done && indegree[t] == 0)
  }

  ghost predicate CountsRemaining(deps: Dependencies, indegree: map<TaskId, nat>, done: seq<TaskId>) {
    indegree.Keys == deps.Keys && forall t | t in deps :: indegree[t] == Remaining(deps[t], ToSet(done))
  }

  ghost function ToSet(s: seq<TaskId>): set<TaskId> {
    set x | x in s
  }

  ghost predicate IsPartialOrder(deps: Dependencies, order: seq<TaskId>) {
    && Distinct(order)
    && (forall t | t in order :: t in deps)
    && (forall k | 0 <= k < |order| :: FollowsItsDependencies(deps, order, k))
    && IsGreedy(deps, order)
  }

  lemma OrderedHasItsDependencies(deps: Dependencies, ordered: seq<TaskId>, t: TaskId)
    requires IsPartialOrder(deps, ordered) && t in ordered
    ensures forall d | d in deps[t] :: d in ordered
  {
    var k :| 0 <= k < |ordered| && ordered[k] == t;
    assert FollowsItsDependencies(deps, ordered, k);
  }

  lemma CountIsAvailability(deps: Dependencies, indegree: map<TaskId, nat>, ordered: seq<TaskId>, t: TaskId)
    requires CountsRemaining(deps, indegree, ordered) && t in deps && t !in ordered
    ensures indegree[t] == 0 <==> Available(deps, ordered, t)
  {
    RemainingZero(deps[t], ToSet(ordered));
  }

  lemma NextIsSmallestAvailable(deps: Dependencies, indegree: map<TaskId, nat>, ordered: seq<TaskId>, available: seq<TaskId>)
    requires CountsRemaining(deps, indegree, ordered) && AvailableIsExact(deps, indegree, ordered, available)
    requires available != []
    ensures Available(deps, ordered, available[0])
    ensures forall t | Available(deps, ordered, t) :: AtMost(available[0], t)
  {
    assert available[0] in available;
    CountIsAvailability(deps, indegree, ordered, available[0]);
    forall t | Available(deps, ordered, t) ensures AtMost(available[0], t) {
      CountIsAvailability(deps, indegree, ordered, t);
      SortedHeadIsLeast(AtMost, available, t);
    }
  }

  lemma ExtendPartialOrder(deps: Dependencies, ordered: seq<TaskId>, x: TaskId)
    requires IsPartialOrder(deps, ordered) && Available(deps, ordered, x)
    requires forall t | Available(deps, ordered, t) :: AtMost(x, t)
    ensures IsPartialOrder(deps, ordered + [x])
  {
    var longer := ordered + [x];
    forall k | 0 <= k < |longer|
      ensures FollowsItsDependencies(deps, longer, k) && IsSmallestChoice(deps, longer, k)
    {
      assert longer[..k] == if k < |ordered| then ordered[..k] else ordered;
      if k < |ordered| {
        assert FollowsItsDependencies(deps, ordered, k) && IsSmallestChoice(deps, ordered, k);
      }
    }
  }

  lemma OrderedFits(deps: Dependencies, ordered: seq<TaskId>)
    requires IsPartialOrder(deps, ordered)
    ensures |ordered| <= |deps|
  {
    DistinctLength(ordered);
    SubsetIsNoLarger(ToSet(ordered), deps.Keys);
  }

  lemma RestIsExact(deps: Dependencies, indegree: map<TaskId, nat>, ordered: seq<TaskId>, x: TaskId, rest: seq<TaskId>)
    requires AvailableIsExact(deps, indegree, ordered, [x] + rest)
    ensures AvailableIsExact(deps, indegree, ordered + [x], rest)
    ensures x in deps && x !in ordered
  {
    var all := [x] + rest;
    assert forall i | 0 <= i < |rest| :: rest[i] == all[i + 1];
    assert all[0] == x && x in all;
    assert forall t :: t in all <==> t == x || t in rest;
  }

  lemma AllOrdered(deps: Dependencies, ordered: seq<TaskId>, declared: seq<TaskId>)
    requires IsPartialOrder(deps, ordered) && Distinct(declared) && |ordered| == |declared|
    requires forall t :: t in declared <==> t in deps
    ensures IsTopological(deps, ordered)
  {
    DistinctLength(ordered);
    DistinctLength(declared);
    SubsetIsNoLarger(ToSet(ordered), ToSet(declared));
    assert forall t :: t in ToSet(ordered) <==> t in ordered;
  }

  // ----- Cycles -----

  ghost predicate IsStuck(deps: Dependencies, stuck: set<TaskId>) {
    forall u | u in stuck :: WaitsInside(deps, stuck, u)
  }

  ghost predicate WaitsInside(deps: Dependencies, stuck: set<TaskId>, u: TaskId) {
    u in deps && exists d :: d in deps[u] && d in stuck
  }

  /** `n` steps along dependencies that never leave `stuck`. */
  lemma {:induction false} StuckWalk(deps: Dependencies, stuck: set<TaskId>, t: TaskId, n: nat) returns (walk: seq<TaskId>)
    requires IsStuck(deps, stuck) && t in stuck
    ensures |walk| == n + 1 && walk[0] == t && IsWalk(deps, walk) && ToSet(walk) <= stuck
    decreases n
  {
    if n == 0 {
      walk := [t];
    } else {
      assert WaitsInside(deps, stuck, t);
      var d :| d in deps[t] && d in stuck;
      var rest := StuckWalk(deps, stuck, d, n - 1);
      walk := [t] + rest;
      forall i | 0 < i < |walk| ensures StepsToDependency(deps, walk, i) {
        assert i == 1 || StepsToDependency(deps, rest, i - 1);
      }
      assert ToSet(walk) == {t} + ToSet(rest);
    }
  }

  lemma StuckSetHasCycle(deps: Dependencies, stuck: set<TaskId>, t: TaskId)
    requires IsStuck(deps, stuck) && t in stuck
    ensures HasCycle(deps)
  {
    var walk := StuckWalk(deps, stuck, t, |stuck|);
    assert !Distinct(walk) by {
      if Distinct(walk) {
        DistinctLength(walk);
        SubsetIsNoLarger(ToSet(walk), stuck);
      }
    }
    var i, j :| 0 <= i < j < |walk| && walk[i] == walk[j];
    var loop := walk[i..j + 1];
    forall k | 0 < k < |loop| ensures StepsToDependency(deps, loop, k) {
      assert StepsToDependency(deps, walk, i + k);
    }
    assert IsCycle(deps, loop);
  }

  lemma StuckMeansCycle(deps: Dependencies, indegree: map<TaskId, nat>, ordered: seq<TaskId>, declared: seq<TaskId>)
    requires WellFormed(deps) && Distinct(declared) && forall t :: t in declared <==> t in deps
    requires IsPartialOrder(deps, ordered) && CountsRemaining(deps, indegree, ordered)
    requires AvailableIsExact(deps, indegree, ordered, []) && |ordered| != |declared|
    ensures HasCycle(deps)
  {
    var stuck := set t | t in deps && t !in ordered;
    DistinctLength(ordered);
    DistinctLength(declared);
    if stuck == {} {
      forall t ensures t in ToSet(ordered) <==> t in ToSet(declared) {
        assert t !in stuck;
      }
    }
    assert stuck == {} ==> ToSet(ordered) == ToSet(declared);
    forall u | u in stuck ensures WaitsInside(deps, stuck, u) {
      assert u !in [];
      CountIsAvailability(deps, indegree, ordered, u);
      var d :| d in deps[u] && d !in ordered;
      assert d in stuck;
    }
    var t :| t in stuck;
    StuckSetHasCycle(deps, stuck, t);
  }

  /** Along a walk a topological order only goes back. */
  lemma {:induction false} WalkGoesBack(deps: Dependencies, order: seq<TaskId>, walk: seq<TaskId>, i: nat, from: nat, to: nat)
    requires IsTopological(deps, order) && IsWalk(deps, walk) && 1 <= i < |walk|
    requires from < |order| && order[from] == walk[0] && to < |order| && order[to] == walk[i]
    ensures to < from
  {
    assert StepsToDependency(deps, walk, i);
    var before :| 0 <= before < |order| && order[before] == walk[i - 1];
    assert FollowsItsDependencies(deps, order, before);
    assert walk[i] in order[..before];
    var k :| 0 <= k < before && order[k] == walk[i];
    assert k == to;
    if i > 1 {
      WalkGoesBack(deps, order, walk, i - 1, from, before);
    }
  }

  lemma CycleForbidsOrder(deps: Dependencies, walk: seq<TaskId>, order: seq<TaskId>)
    requires IsCycle(deps, walk)
    ensures !IsTopological(deps, order)
  {
    if IsTopological(deps, order) {
      assert StepsToDependency(deps, walk, 1) && walk[0] in order;
      var at :| 0 <= at < |order| && order[at] == walk[0];
      WalkGoesBack(deps, order, walk, |walk| - 1, at, at);
    }
  }

  /** A graph that can be ordered has no cycle. */
  lemma OrderedIsAcyclic(deps: Dependencies, order: seq<TaskId>)
    requires IsTopological(deps, order)
    ensures !HasCycle(deps)
  {
    if walk :| IsCycle(deps, walk) {
      CycleForbidsOrder(deps, walk, order);
    }
  }

  // ----- Which topological order it is -----

  ghost function FirstDifference(a: seq<TaskId>, b: seq<TaskId>): (k: nat)
    ensures k <= |a| && k <= |b| && a[..k] == b[..k]
    ensures k < |a| && k < |b| ==> a[k] != b[k]
  {
    if a == [] || b == [] || a[0] != b[0] then 0
    else
      var k := 1 + FirstDifference(a[1..], b[1..]);
      assert a[..k] == [a[0]] + a[1..][..k - 1] && b[..k] == [b[0]] + b[1..][..k - 1];
      k
  }

  /** The greedy order comes first among all topological orders of the graph. */
  lemma GreedyIsLeast(deps: Dependencies, greedy: seq<TaskId>, other: seq<TaskId>)
    requires IsTopological(deps, greedy) && IsGreedy(deps, greedy) && IsTopological(deps, other)
    ensures LexicographicallyAtMost(greedy, other)
  {
    DistinctLength(greedy);
    DistinctLength(other);
    assert ToSet(greedy) == ToSet(other);
    var k := FirstDifference(greedy, other);
    if k < |greedy| {
      assert FollowsItsDependencies(deps, other, k) && IsSmallestChoice(deps, greedy, k);
      assert AtMost(greedy[k], other[k]);
      assert greedy[..k] == other[..k] && Before(greedy[k], other[k]);
    } else {
      assert greedy == greedy[..k] == other[..k] == other;
    }
  }

  /** Every count is up to date except that those in `waiting` are still one too high. */
  ghost predicate PartlyReleased(deps: Dependencies, indegree: map<TaskId, nat>, done: set<TaskId>, waiting: seq<TaskId>) {
    && indegree.Keys == deps.Keys
    && Distinct(waiting) && (forall t | t in waiting :: t in deps)
    && (forall t | t in deps :: indegree[t] == Remaining(deps[t], done) + (if t in waiting then 1 else 0))
  }

  lemma OneFewer(deps: Dependencies, indegree: map<TaskId, nat>, done: set<TaskId>, waiting: seq<TaskId>)
    requires waiting != [] && PartlyReleased(deps, indegree, done, waiting)
    ensures indegree[waiting[0]] >= 1
    ensures PartlyReleased(deps, indegree[waiting[0] := indegree[waiting[0]] - 1], done, waiting[1..])
  {
    assert waiting == [waiting[0]] + waiting[1..];
    assert waiting[0] !in waiting[1..];
    assert forall t :: t in waiting <==> t == waiting[0] || t in waiting[1..];
  }

  lemma NewlyAvailable(deps: Dependencies, indegree: map<TaskId, nat>, done: seq<TaskId>, available: seq<TaskId>, d: TaskId)
    requires AvailableIsExact(deps, indegree, done, available) && d in deps && d !in done && indegree[d] == 1
    ensures AvailableIsExact(deps, indegree[d := 0], done, SortBy(AtMost, available + [d]))
  {
    var _ := SortedTaskIds(available + [d]);
    assert forall t :: t in available + [d] <==> t in available || t == d;
  }

  lemma StillUnavailable(deps: Dependencies, indegree: map<TaskId, nat>, done: seq<TaskId>, available: seq<TaskId>, d: TaskId)
    requires AvailableIsExact(deps, indegree, done, available) && d in deps && indegree[d] > 1
    ensures AvailableIsExact(deps, indegree[d := indegree[d] - 1], done, available)
  {
  }

  /** One turn of the inner loop. */
  lemma ReleaseOne(deps: Dependencies, indegree: map<TaskId, nat>, ordered: seq<TaskId>, x: TaskId,
                   available: seq<TaskId>, waiting: seq<TaskId>)
    requires IsPartialOrder(deps, ordered) && x !in ordered && x in deps && x !in deps[x]
    requires waiting != [] && PartlyReleased(deps, indegree, ToSet(ordered + [x]), waiting)
    requires forall t | t in waiting :: x in deps[t]
    requires AvailableIsExact(deps, indegree, ordered + [x], available)
    ensures var d := waiting[0];
            && indegree[d] >= 1
            && PartlyReleased(deps, indegree[d := indegree[d] - 1], ToSet(ordered + [x]), waiting[1..])
            && AvailableIsExact(deps, indegree[d := indegree[d] - 1], ordered + [x],
                                if indegree[d] == 1 then SortBy(AtMost, available + [d]) else available)
  {
    var d := waiting[0];
    OneFewer(deps, indegree, ToSet(ordered + [x]), waiting);
    assert d in waiting;
    if indegree[d] == 1 {
      if d in ordered {
        OrderedHasItsDependencies(deps, ordered, d);
      }
      NewlyAvailable(deps, indegree, ordered + [x], available, d);
    } else {
      StillUnavailable(deps, indegree, ordered + [x], available, d);
    }
  }

  lemma BeginRelease(deps: Dependencies, indegree: map<TaskId, nat>, ordered: seq<TaskId>, x: TaskId, rest: seq<TaskId>,
                     dependents: seq<TaskId>)
    requires WellFormed(deps) && CountsRemaining(deps, indegree, ordered)
    requires AvailableIsExact(deps, indegree, ordered, [x] + rest)
    requires Distinct(dependents) && forall t :: t in dependents <==> t in deps && x in deps[t]
    ensures PartlyReleased(deps, indegree, ToSet(ordered + [x]), dependents)
    ensures AvailableIsExact(deps, indegree, ordered + [x], rest)
    ensures x in deps && x !in ordered && x !in deps[x]
  {
    assert x in [x] + rest;
    CountIsAvailability(deps, indegree, ordered, x);
    RestIsExact(deps, indegree, ordered, x, rest);
    assert ToSet(ordered + [x]) == ToSet(ordered) + {x};
    forall t | t in deps
      ensures indegree[t] == Remaining(deps[t], ToSet(ordered + [x])) + (if t in dependents then 1 else 0)
    {
      RemainingAfter(deps[t], ToSet(ordered), x);
    }
  }

  /** What the inner loop computes. */
  function ReleaseAll(waiting: seq<TaskId>, indegree: map<TaskId, nat>, available: seq<TaskId>): (map<TaskId, nat>, seq<TaskId>)
    requires Distinct(waiting) && forall t | t in waiting :: t in indegree && indegree[t] >= 1
  {
    if waiting == [] then (indegree, available)
    else
      var d := waiting[0];
      assert waiting == [d] + waiting[1..];
      ReleaseAll(waiting[1..], indegree[d := indegree[d] - 1],
                 if indegree[d] == 1 then SortBy(AtMost, available + [d]) else available)
  }

  /** Between two turns of the inner loop, `x` being the task just ordered. */
  ghost predicate MidRelease(deps: Dependencies, indegree: map<TaskId, nat>, ordered: seq<TaskId>, x: TaskId,
                             available: seq<TaskId>, waiting: seq<TaskId>) {
    && IsPartialOrder(deps, ordered) && x !in ordered && x in deps && x !in deps[x]
    && PartlyReleased(deps, indegree, ToSet(ordered + [x]), waiting)
    && (forall t | t in waiting :: x in deps[t])
    && AvailableIsExact(deps, indegree, ordered + [x], available)
  }

  lemma MidReleaseStep(deps: Dependencies, indegree: map<TaskId, nat>, ordered: seq<TaskId>, x: TaskId,
                       available: seq<TaskId>, waiting: seq<TaskId>)
    requires waiting != [] && MidRelease(deps, indegree, ordered, x, available, waiting)
    ensures var d := waiting[0];
            && d in indegree && indegree[d] >= 1
            && MidRelease(deps, indegree[d := indegree[d] - 1], ordered, x,
                          if indegree[d] == 1 then SortBy(AtMost, available + [d]) else available, waiting[1..])
  {
    ReleaseOne(deps, indegree, ordered, x, available, waiting);
    assert forall t | t in waiting[1..] :: t in waiting;
  }

  lemma MidReleaseCounts(deps: Dependencies, indegree: map<TaskId, nat>, ordered: seq<TaskId>, x: TaskId,
                         available: seq<TaskId>, waiting: seq<TaskId>)
    requires MidRelease(deps, indegree, ordered, x, available, waiting)
    ensures Distinct(waiting) && forall t | t in waiting :: t in indegree && indegree[t] >= 1
  {
  }

  lemma {:induction false} ReleaseAllKeeps(deps: Dependencies, indegree: map<TaskId, nat>, ordered: seq<TaskId>, x: TaskId,
                                           available: seq<TaskId>, waiting: seq<TaskId>)
    returns (indegree': map<TaskId, nat>, available': seq<TaskId>)
    requires MidRelease(deps, indegree, ordered, x, available, waiting)
    ensures Distinct(waiting) && forall t | t in waiting :: t in indegree && indegree[t] >= 1
    ensures (indegree', available') == ReleaseAll(waiting, indegree, available)
    ensures MidRelease(deps, indegree', ordered, x, available', [])
    decreases |waiting|
  {
    hide MidRelease;
    MidReleaseCounts(deps, indegree, ordered, x, available, waiting);
    if waiting == [] {
      indegree', available' := indegree, available;
    } else {
      MidReleaseStep(deps, indegree, ordered, x, available, waiting);
      var d := waiting[0];
      indegree', available' := ReleaseAllKeeps(deps, indegree[d := indegree[d] - 1], ordered, x,
        if indegree[d] == 1 then SortBy(AtMost, available + [d]) else available, waiting[1..]);
    }
  }

  /** One turn of the outer loop: the smallest available task is ordered and its dependents released. */
  lemma OrderNext(deps: Dependencies, declared: seq<TaskId>, indegree: map<TaskId, nat>, ordered: seq<TaskId>,
                  available: seq<TaskId>, dependents: seq<TaskId>)
    requires WellFormed(deps) && Distinct(declared) && forall t :: t in declared <==> t in deps
    requires IsPartialOrder(deps, ordered) && CountsRemaining(deps, indegree, ordered)
    requires available != [] && AvailableIsExact(deps, indegree, ordered, available)
    requires available[0] in deps && dependents == SortBy(AtMost, Dependents(deps, declared, available[0]))
    ensures Distinct(dependents) && forall t | t in dependents :: t in indegree && indegree[t] >= 1
    ensures var (indegree', available') := ReleaseAll(dependents, indegree, available[1..]);
            var ordered' := ordered + [available[0]];
            && IsPartialOrder(deps, ordered') && CountsRemaining(deps, indegree', ordered')
            && AvailableIsExact(deps, indegree', ordered', available')
    ensures |ordered| < |deps|
  {
    var x := available[0];
    NextIsSmallestAvailable(deps, indegree, ordered, available);
    ExtendPartialOrder(deps, ordered, x);
    OrderedFits(deps, ordered + [x]);
    var _ := SortedTaskIds(Dependents(deps, declared, x));
    assert available == [x] + available[1..];
    BeginRelease(deps, indegree, ordered, x, available[1..], dependents);
    var _, _ := ReleaseAllKeeps(deps, indegree, ordered, x, available[1..], dependents);
  }

  lemma Start(deps: Dependencies, declared: seq<TaskId>, indegree: map<TaskId, nat>)
    requires WellFormed(deps) && Distinct(declared) && forall t :: t in declared <==> t in deps
    requires indegree == map t | t in deps :: |deps[t]|
    ensures IsPartialOrder(deps, []) && CountsRemaining(deps, indegree, [])
    ensures AvailableIsExact(deps, indegree, [], SortBy(AtMost, WithoutDependencies(deps, declared)))
  {
    var _ := SortedTaskIds(WithoutDependencies(deps, declared));
    assert ToSet([]) == {};
    forall t | t in deps ensures indegree[t] == Remaining(deps[t], ToSet([])) {
      RemainingZero(deps[t], {});
    }
  }

  /** Kahn's algorithm over a sorted list of available tasks. */
  method TopologicalOrder(deps: Dependencies, declared: seq<TaskId>) returns (r: TopologicalResult)
    requires WellFormed(deps) && Distinct(declared) && forall t :: t in declared <==> t in deps
    ensures r.Ordered? ==> IsTopological(deps, r.order) && IsGreedy(deps, r.order)
    ensures r.Cyclic? <==> HasCycle(deps)
  {
    var indegree: map<TaskId, nat> := map t | t in deps :: |deps[t]|;
    var available := SortBy(AtMost, WithoutDependencies(deps, declared));
    var ordered: seq<TaskId> := [];
    Start(deps, declared, indegree);
    while available != []
      invariant IsPartialOrder(deps, ordered)
      invariant CountsRemaining(deps, indegree, ordered)
      invariant AvailableIsExact(deps, indegree, ordered, available)
      decreases |deps| - |ordered|
    {
      var x := available[0];
      assert x in available;
      var dependents := SortBy(AtMost, Dependents(deps, declared, x));
      OrderNext(deps, declared, indegree, ordered, available, dependents);
      indegree, available := Release(dependents, indegree, available[1..]);
      ordered := ordered + [x];
    }
    if |ordered| != |declared| {
      StuckMeansCycle(deps, indegree, ordered, declared);
      return Cyclic;
    }
    AllOrdered(deps, ordered, declared);
    OrderedIsAcyclic(deps, ordered);
    return Ordered(ordered);
  }

  /** The inner loop: each dependent of the task just ordered has one dependency fewer to wait for. */
  method Release(dependents: seq<TaskId>, indegree: map<TaskId, nat>, available: seq<TaskId>)
    returns (indegree': map<TaskId, nat>, available': seq<TaskId>)
    requires Distinct(dependents) && forall t | t in dependents :: t in indegree && indegree[t] >= 1
    ensures (indegree', available') == ReleaseAll(dependents, indegree, available)
  {
    indegree', available' := indegree, available;
    for i := 0 to |dependents|
      invariant forall t | t in dependents[i..] :: t in indegree' && indegree'[t] >= 1
      invariant ReleaseAll(dependents, indegree, available) == ReleaseAll(dependents[i..], indegree', available')
    {
      var d := dependents[i];
      assert dependents[i..] == [d] + dependents[i + 1..];
      if indegree'[d] == 1 {
        available' := SortBy(AtMost, available' + [d]);
      }
      indegree' := indegree'[d := indegree'[d] - 1];
    }
  }
}
