/** Repository path scopes: what they cover, when two overlap, and which a lease keeps. */
module Scopes {
  import opened Ordering

  /** A normalised path: components without separators or wildcards. */
  type Path = seq<string>

  // An exact path, or with `subtree` the path and everything below it (written with a final "/**").
  datatype Scope = Scope(parts: Path, subtree: bool)

  predicate IsComponent(c: string) {
    c != "" && forall i | 0 <= i < |c| :: c[i] != '/' && c[i] != '*'
  }

  predicate IsNormalPath(p: Path) {
    p != [] && forall c | c in p :: IsComponent(c)
  }

  predicate AllNormal(scopes: seq<Scope>) {
    forall s | s in scopes :: IsNormalPath(s.parts)
  }

  predicate Covers(s: Scope, p: Path) {
    if s.subtree then s.parts <= p else s.parts == p
  }

  // ----- Overlap -----

  /** The comparison of the common prefix that the lease manager makes. */
  predicate PathsOverlap(left: Scope, right: Scope) {
    var common := if |left.parts| <= |right.parts| then |left.parts| else |right.parts|;
    if left.parts[..common] != right.parts[..common] then false
    else if |left.parts| == |right.parts| then true
    else if |left.parts| < |right.parts| then left.subtree
    else right.subtree
  }

  /** Two scopes overlap exactly when some path lies in both. */
  lemma OverlapIffSharedPath(left: Scope, right: Scope)
    ensures PathsOverlap(left, right) <==> exists p :: Covers(left, p) && Covers(right, p)
    ensures PathsOverlap(left, right) == PathsOverlap(right, left)
  {
    var longer := if |left.parts| <= |right.parts| then right.parts else left.parts;
    if PathsOverlap(left, right) {
      assert left.parts[..|left.parts|] == left.parts && right.parts[..|right.parts|] == right.parts;
      assert Covers(left, longer) && Covers(right, longer);
    }
    if p :| Covers(left, p) && Covers(right, p) {
      assert forall n | 0 <= n <= |left.parts| && n <= |right.parts| :: left.parts[..n] == p[..n] == right.parts[..n];
    }
  }

  // ----- Written form -----

  /** Every component followed by a separator. */
  function Terminated(p: Path): string {
    if p == [] then "" else p[0] + "/" + Terminated(p[1..])
  }

  /** Components separated by `/`. */
  function Join(p: Path): string {
    if p == [] then "" else if |p| == 1 then p[0] else p[0] + "/" + Join(p[1..])
  }

  function Render(s: Scope): string {
    if s.subtree then Join(s.parts) + "/**" else Join(s.parts)
  }

  lemma {:induction false} JoinTerminated(p: Path)
    requires p != []
    ensures Join(p) + "/" == Terminated(p)
  {
    if |p| > 1 {
      JoinTerminated(p[1..]);
      assert Join(p) + "/" == p[0] + "/" + (Join(p[1..]) + "/");
    }
  }

  lemma {:induction false} TerminatedConcat(p: Path, q: Path)
    ensures Terminated(p + q) == Terminated(p) + Terminated(q)
  {
    if p == [] {
      assert p + q == q;
    } else {
      TerminatedConcat(p[1..], q);
      assert (p + q)[1..] == p[1..] + q && (p + q)[0] == p[0];
    }
  }

  /** The separator ends a component: equal text up to it means equal first components. */
  lemma FirstComponent(c: string, d: string, s: string, t: string)
    requires IsComponent(c) && IsComponent(d) && c + "/" + s <= d + "/" + t
    ensures c == d && s <= t
  {
    var short, long := c + "/" + s, d + "/" + t;
    assert short[|c|] == '/' && long[|d|] == '/';
    assert forall i | 0 <= i < |c| :: short[i] == c[i];
    assert forall i | 0 <= i < |d| :: long[i] == d[i];
    assert forall i | 0 <= i < |short| :: short[i] == long[i];
    assert forall i | 0 <= i < |c| :: long[i] == short[i] != '/';
    assert forall i | 0 <= i < |d| && i < |short| :: short[i] == long[i] != '/';
    assert |c| == |d|;
    assert forall i | 0 <= i < |c| :: c[i] == short[i] == long[i] == d[i];
    assert s == short[|c| + 1..] && t == long[|c| + 1..];
    assert forall i | 0 <= i < |s| :: s[i] == short[|c| + 1 + i] == long[|c| + 1 + i] == t[i];
  }

  lemma TerminatedSplit(p: Path)
    ensures p == [] ==> Terminated(p) == ""
    ensures p != [] ==> Terminated(p) == p[0] + "/" + Terminated(p[1..]) && |Terminated(p)| > 0
  {
  }

  lemma {:induction false} TextPrefixMeansPathPrefix(p: Path, q: Path)
    requires (forall c | c in p :: IsComponent(c)) && (forall c | c in q :: IsComponent(c))
    requires Terminated(p) <= Terminated(q)
    ensures p <= q
  {
    hide Terminated, IsComponent;
    TerminatedSplit(p);
    TerminatedSplit(q);
    if p != [] {
      FirstComponent(p[0], q[0], Terminated(p[1..]), Terminated(q[1..]));
      TextPrefixMeansPathPrefix(p[1..], q[1..]);
      assert p == [p[0]] + p[1..] && q == [q[0]] + q[1..];
    }
  }

  lemma TextPrefixIsPathPrefix(p: Path, q: Path)
    requires (forall c | c in p :: IsComponent(c)) && (forall c | c in q :: IsComponent(c))
    ensures Terminated(p) <= Terminated(q) <==> p <= q
  {
    hide Terminated, IsComponent;
    if p <= q {
      assert q == p + q[|p|..];
      TerminatedConcat(p, q[|p|..]);
    }
    if Terminated(p) <= Terminated(q) {
      TextPrefixMeansPathPrefix(p, q);
    }
  }

  lemma JoinIsInjective(p: Path, q: Path)
    requires IsNormalPath(p) && IsNormalPath(q)
    ensures Join(p) == Join(q) <==> p == q
  {
    JoinTerminated(p);
    JoinTerminated(q);
    TextPrefixIsPathPrefix(p, q);
    TextPrefixIsPathPrefix(q, p);
  }

  // ----- Authorisation -----

  /** The string test by which the registry lets an agent write a path. */
  predicate PathIsAllowed(path: string, allowed: seq<Scope>) {
    exists s | s in allowed ::
      if s.subtree then path == Join(s.parts) || Join(s.parts) + "/" <= path else path == Join(s.parts)
  }

  /** The registry's string test, coverage, and the lease manager's overlap test agree. */
  lemma AllowedIffCovered(path: Path, allowed: seq<Scope>)
    requires IsNormalPath(path) && AllNormal(allowed)
    ensures PathIsAllowed(Join(path), allowed) <==> exists s | s in allowed :: Covers(s, path)
    ensures PathIsAllowed(Join(path), allowed) <==> exists s | s in allowed :: PathsOverlap(s, Scope(path, false))
  {
    forall s | s in allowed
      ensures (if s.subtree then Join(path) == Join(s.parts) || Join(s.parts) + "/" <= Join(path) else Join(path) == Join(s.parts))
              <==> Covers(s, path)
      ensures Covers(s, path) <==> PathsOverlap(s, Scope(path, false))
    {
      JoinIsInjective(path, s.parts);
      JoinTerminated(path);
      JoinTerminated(s.parts);
      TextPrefixIsPathPrefix(s.parts, path);
      assert Join(path) == Terminated(path)[..|Terminated(path)| - 1];
      assert Join(s.parts) == Terminated(s.parts)[..|Terminated(s.parts)| - 1];
      OverlapIffSharedPath(s, Scope(path, false));
    }
  }

  // ----- Canonical scopes of a lease -----

  predicate RendersAtMost(a: Scope, b: Scope) {
    AtMost(Render(a), Render(b))
  }

  predicate Swallowed(kept: seq<Scope>, s: Scope) {
    exists parent | parent in kept :: parent.subtree && PathsOverlap(parent, s)
  }

  /** What the loop over the sorted scopes keeps. */
  function Kept(sorted: seq<Scope>): seq<Scope> {
    if sorted == [] then []
    else
      var s := sorted[|sorted| - 1];
      var before := Kept(sorted[..|sorted| - 1]);
      if Swallowed(before, s) then before else before + [s]
  }

  function Canonical(paths: seq<Scope>): seq<Scope> {
    Kept(SortBy(RendersAtMost, WithoutRepeats(paths)))
  }

  method CanonicalScopes(paths: seq<Scope>) returns (r: seq<Scope>)
    ensures r == Canonical(paths)
  {
    hide SortBy, WithoutRepeats, Swallowed;
    var normalized := SortBy(RendersAtMost, WithoutRepeats(paths));
    r := [];
    for i := 0 to |normalized|
      invariant r == Kept(normalized[..i])
    {
      assert normalized[..i + 1][..i] == normalized[..i];
      if !Swallowed(r, normalized[i]) {
        r := r + [normalized[i]];
      }
    }
    assert normalized[..|normalized|] == normalized;
  }

  ghost predicate CoveredBy(scopes: seq<Scope>, p: Path) {
    exists s | s in scopes :: Covers(s, p)
  }

  ghost predicate SameCoverage(a: seq<Scope>, b: seq<Scope>) {
    forall p :: CoveredBy(a, p) <==> CoveredBy(b, p)
  }

  predicate StartsBeforeStar(c: string) {
    c != "" && c[0] < '*'
  }

  predicate StrictlyUnder(child: Scope, parent: Scope) {
    parent.parts <= child.parts && parent.parts != child.parts
  }

  /** A requested subtree that no other requested subtree contains. */
  predicate IsOutermost(paths: seq<Scope>, p: Scope) {
    p in paths && p.subtree && forall q | q in paths && q.subtree :: !StrictlyUnder(p, q)
  }

  /** A requested subtree below `p` whose next component starts with a character before `*`. */
  predicate HasEarlyChild(paths: seq<Scope>, p: Scope) {
    exists d | d in paths :: d.subtree && StrictlyUnder(d, p) && StartsBeforeStar(d.parts[|p.parts|])
  }

  predicate SafeToCanonicalize(paths: seq<Scope>) {
    forall p | p in paths :: IsOutermost(paths, p) ==> !HasEarlyChild(paths, p)
  }

  /** Below a subtree, the next component's first character decides which is written first. */
  lemma ChildOrder(child: Scope, parent: Scope)
    requires IsNormalPath(child.parts) && IsNormalPath(parent.parts)
    requires child.subtree && parent.subtree && StrictlyUnder(child, parent)
    ensures Before(Render(child), Render(parent)) <==> StartsBeforeStar(child.parts[|parent.parts|])
    ensures Render(child) != Render(parent)
  {
    var below := child.parts[|parent.parts|..];
    assert child.parts == parent.parts + below;
    assert below[0] in child.parts && IsComponent(below[0]);
    TerminatedConcat(parent.parts, below);
    JoinTerminated(child.parts);
    JoinTerminated(parent.parts);
    var prefix, a, b := Terminated(parent.parts), Terminated(below) + "**", "**";
    assert Render(child) == prefix + a by { assert Render(child) == (Join(child.parts) + "/") + "**"; }
    assert Render(parent) == prefix + b by { assert Render(parent) == (Join(parent.parts) + "/") + "**"; }
    BeforeAfterCommonPrefix(prefix, a, b);
    assert a[0] == below[0][0] != '*';
    assert Before(a, b) == (a[0] < b[0]);
    assert (prefix + a)[|prefix|] == a[0] != b[0] == (prefix + b)[|prefix|];
  }

  /** Entry `j` is `x`, and nothing kept before it swallows it. */
  predicate KeptAt(sorted: seq<Scope>, x: Scope, j: nat) {
    j < |sorted| && sorted[j] == x && !Swallowed(Kept(sorted[..j]), x)
  }

  lemma KeptAtPrefix(sorted: seq<Scope>, x: Scope, n: nat, j: nat)
    requires j < n <= |sorted|
    ensures KeptAt(sorted[..n], x, j) <==> KeptAt(sorted, x, j)
  {
    assert sorted[..n][..j] == sorted[..j];
  }

  lemma {:induction false} KeptMembers(sorted: seq<Scope>, x: Scope)
    ensures x in Kept(sorted) <==> exists j: nat :: KeptAt(sorted, x, j)
  {
    if sorted != [] {
      var last := |sorted| - 1;
      KeptMembers(sorted[..last], x);
      forall j: nat | j < last ensures KeptAt(sorted[..last], x, j) <==> KeptAt(sorted, x, j) {
        KeptAtPrefix(sorted, x, last, j);
      }
      assert KeptAt(sorted, x, last) <==> sorted[last] == x && !Swallowed(Kept(sorted[..last]), x);
    }
  }

  /** What the canonical form starts from. */
  ghost predicate IsSortedListing(sorted: seq<Scope>, paths: seq<Scope>) {
    Distinct(sorted) && SortedBy(RendersAtMost, sorted) && forall s :: s in sorted <==> s in paths
  }

  lemma ListingIsSorted(paths: seq<Scope>)
    ensures IsSortedListing(SortBy(RendersAtMost, WithoutRepeats(paths)), paths)
  {
    var unique := WithoutRepeats(paths);
    var sorted := SortBy(RendersAtMost, unique);
    AtMostIsTotalPreorder();
    forall a, b ensures RendersAtMost(a, b) || RendersAtMost(b, a) {
      assert AtMost(Render(a), Render(b)) || AtMost(Render(b), Render(a));
    }
    forall a, b, c | RendersAtMost(a, b) && RendersAtMost(b, c) ensures RendersAtMost(a, c) {
      assert AtMost(Render(a), Render(b)) && AtMost(Render(b), Render(c));
    }
    SortByCorrect(RendersAtMost, unique);
    PermutationKeepsDistinct(unique, sorted);
    forall s ensures s in sorted <==> s in paths {
      assert s in sorted <==> s in multiset(sorted);
      assert s in unique <==> s in multiset(unique);
    }
  }

  /** The listing puts an early child before its parent, and any other child after it. */
  lemma ListedBefore(sorted: seq<Scope>, paths: seq<Scope>, i: nat, j: nat)
    requires IsSortedListing(sorted, paths) && AllNormal(paths) && i < |sorted| && j < |sorted|
    requires sorted[i].subtree && sorted[j].subtree && StrictlyUnder(sorted[i], sorted[j])
    ensures i < j <==> StartsBeforeStar(sorted[i].parts[|sorted[j].parts|])
  {
    assert sorted[i] in paths && sorted[j] in paths;
    ChildOrder(sorted[i], sorted[j]);
    BeforeIsTotal(Render(sorted[i]), Render(sorted[j]));
    assert i < j ==> RendersAtMost(sorted[i], sorted[j]);
    assert j < i ==> RendersAtMost(sorted[j], sorted[i]);
  }

  lemma {:induction false} HasOutermost(paths: seq<Scope>, s: Scope) returns (p: Scope)
    requires s in paths && s.subtree
    ensures IsOutermost(paths, p) && p.parts <= s.parts
    decreases |s.parts|
  {
    if IsOutermost(paths, s) {
      p := s;
    } else {
      var q :| q in paths && q.subtree && StrictlyUnder(s, q);
      p := HasOutermost(paths, q);
    }
  }

  /** Comparable scopes: one lies on or under the other. */
  lemma SwallowedBy(kept: seq<Scope>, s: Scope) returns (parent: Scope)
    requires Swallowed(kept, s)
    ensures parent in kept && parent.subtree
    ensures parent.parts <= s.parts || (s.subtree && StrictlyUnder(parent, s))
  {
    parent :| parent in kept && parent.subtree && PathsOverlap(parent, s);
    assert parent.parts[..|parent.parts|] == parent.parts && s.parts[..|s.parts|] == s.parts;
  }

  lemma PrefixesCompare(a: Path, b: Path, c: Path)
    requires a <= c && b <= c
    ensures a <= b || b <= a
  {
    assert a == c[..|a|] && b == c[..|b|];
  }

  /** A subtree beside `p` overlaps nothing on or under `p`. */
  lemma BesideIsDisjoint(beside: Scope, p: Scope, s: Scope)
    requires !(beside.parts <= p.parts) && !(p.parts <= beside.parts) && p.parts <= s.parts
    ensures !PathsOverlap(beside, s)
  {
    if beside.parts <= s.parts {
      PrefixesCompare(beside.parts, p.parts, s.parts);
    }
    assert beside.parts[..|beside.parts|] == beside.parts && s.parts[..|s.parts|] == s.parts;
  }

  lemma EarlierIsBeside(paths: seq<Scope>, earlier: Scope, p: Scope)
    requires earlier in paths && earlier.subtree && IsOutermost(paths, p) && earlier != p && !StrictlyUnder(earlier, p)
    ensures !(earlier.parts <= p.parts) && !(p.parts <= earlier.parts)
  {
    assert !StrictlyUnder(p, earlier);
  }

  /** When an outermost subtree has no early child it is kept. */
  lemma OutermostIsKept(sorted: seq<Scope>, paths: seq<Scope>, p: Scope)
    requires IsSortedListing(sorted, paths) && AllNormal(paths)
    requires IsOutermost(paths, p) && !HasEarlyChild(paths, p)
    ensures p in Kept(sorted)
  {
    hide Render, PathsOverlap, AllNormal;
    var j :| 0 <= j < |sorted| && sorted[j] == p;
    KeptMembers(sorted, p);
    forall earlier | earlier in Kept(sorted[..j]) && earlier.subtree ensures !PathsOverlap(earlier, p) {
      KeptMembers(sorted[..j], earlier);
      var i: nat :| KeptAt(sorted[..j], earlier, i);
      assert earlier in paths;
      if StrictlyUnder(earlier, p) {
        ListedBefore(sorted, paths, i, j);
      }
      EarlierIsBeside(paths, earlier, p);
      BesideIsDisjoint(earlier, p, p);
    }
    assert KeptAt(sorted, p, j);
  }

  /** The first child listed of an outermost subtree that follows it is kept. */
  lemma FirstChildIsKept(sorted: seq<Scope>, paths: seq<Scope>, p: Scope, i: nat, j: nat)
    requires IsSortedListing(sorted, paths) && i < j < |sorted| && sorted[j] == p && IsOutermost(paths, p)
    requires sorted[i].subtree && StrictlyUnder(sorted[i], p)
    requires forall k | 0 <= k < i :: !(sorted[k].subtree && StrictlyUnder(sorted[k], p))
    ensures sorted[i] in Kept(sorted[..j])
  {
    forall earlier | earlier in Kept(sorted[..i]) && earlier.subtree ensures !PathsOverlap(earlier, sorted[i]) {
      KeptMembers(sorted[..i], earlier);
      var k: nat :| KeptAt(sorted[..i], earlier, k);
      assert sorted[k] == earlier;
      assert earlier in paths;
      EarlierIsBeside(paths, earlier, p);
      BesideIsDisjoint(earlier, p, sorted[i]);
    }
    KeptMembers(sorted[..j], sorted[i]);
    KeptAtPrefix(sorted, sorted[i], j, i);
    assert KeptAt(sorted[..j], sorted[i], i);
  }

  lemma EarlyChildSwallowsParent(sorted: seq<Scope>, paths: seq<Scope>, p: Scope, at: nat, j: nat)
    requires IsSortedListing(sorted, paths) && AllNormal(paths) && IsOutermost(paths, p)
    requires at < |sorted| && sorted[at].subtree && StrictlyUnder(sorted[at], p)
    requires StartsBeforeStar(sorted[at].parts[|p.parts|]) && j < |sorted| && sorted[j] == p
    ensures Swallowed(Kept(sorted[..j]), p)
  {
    var i := FirstChild(sorted, p, at);
    ListedBefore(sorted, paths, at, j);
    FirstChildIsKept(sorted, paths, p, i, j);
    assert p.parts[..|p.parts|] == p.parts == sorted[i].parts[..|p.parts|];
  }

  /** When an outermost subtree has an early child it is dropped. */
  lemma EarlyChildDropsParent(sorted: seq<Scope>, paths: seq<Scope>, p: Scope)
    requires IsSortedListing(sorted, paths) && AllNormal(paths)
    requires IsOutermost(paths, p) && HasEarlyChild(paths, p)
    ensures p !in Kept(sorted)
  {
    var d :| d in paths && d.subtree && StrictlyUnder(d, p) && StartsBeforeStar(d.parts[|p.parts|]);
    var at :| 0 <= at < |sorted| && sorted[at] == d;
    forall j | 0 <= j < |sorted| && sorted[j] == p ensures Swallowed(Kept(sorted[..j]), p) {
      EarlyChildSwallowsParent(sorted, paths, p, at, j);
    }
    KeptMembers(sorted, p);
  }

  lemma FirstChild(sorted: seq<Scope>, p: Scope, at: nat) returns (i: nat)
    requires at < |sorted| && sorted[at].subtree && StrictlyUnder(sorted[at], p)
    ensures i <= at && sorted[i].subtree && StrictlyUnder(sorted[i], p)
    ensures forall k | 0 <= k < i :: !(sorted[k].subtree && StrictlyUnder(sorted[k], p))
  {
    i := 0;
    while !(sorted[i].subtree && StrictlyUnder(sorted[i], p))
      invariant i <= at
      invariant forall k | 0 <= k < i :: !(sorted[k].subtree && StrictlyUnder(sorted[k], p))
      decreases at - i
    {
      i := i + 1;
    }
  }

  function LongestComponent(paths: seq<Scope>): nat {
    if paths == [] then 0
    else
      var here, rest := LongestIn(paths[0].parts), LongestComponent(paths[1..]);
      if here >= rest then here else rest
  }

  function LongestIn(p: Path): nat {
    if p == [] then 0
    else
      var rest := LongestIn(p[1..]);
      if |p[0]| >= rest then |p[0]| else rest
  }

  lemma {:induction false} NoLongerIn(p: Path, c: string)
    requires c in p
    ensures |c| <= LongestIn(p)
  {
    if c != p[0] {
      NoLongerIn(p[1..], c);
    }
  }

  lemma {:induction false} NoLongerComponent(paths: seq<Scope>, s: Scope, c: string)
    requires s in paths && c in s.parts
    ensures |c| <= LongestComponent(paths)
  {
    if s == paths[0] {
      NoLongerIn(s.parts, c);
    } else {
      NoLongerComponent(paths[1..], s, c);
    }
  }

  /** A path below `p` that no scope names and only subtrees on or above `p` cover. */
  lemma FreshPathBelow(paths: seq<Scope>, p: Scope) returns (unnamed: Path)
    requires p in paths && p.subtree
    ensures Covers(p, unnamed)
    ensures forall s | s in paths && Covers(s, unnamed) :: s.subtree && s.parts <= p.parts
  {
    var c := seq(LongestComponent(paths) + 1, _ => 'x');
    unnamed := p.parts + [c];
    forall s | s in paths && Covers(s, unnamed) ensures s.subtree && s.parts <= p.parts {
      if |s.parts| > |p.parts| {
        assert s.parts == unnamed;
        assert s.parts[|p.parts|] == c;
        NoLongerComponent(paths, s, c);
      } else {
        assert s.subtree && s.parts == unnamed[..|s.parts|] == p.parts[..|s.parts|];
      }
    }
  }

  /** The kept scopes cover what was requested exactly when no outermost subtree has an early child. */
  lemma CanonicalKeepsCoverageIff(paths: seq<Scope>)
    requires AllNormal(paths)
    ensures forall s | s in Canonical(paths) :: s in paths
    ensures SameCoverage(Canonical(paths), paths) <==> SafeToCanonicalize(paths)
  {
    var sorted := SortBy(RendersAtMost, WithoutRepeats(paths));
    ListingIsSorted(paths);
    var kept := Kept(sorted);
    forall s | s in kept ensures s in paths {
      KeptMembers(sorted, s);
    }
    if SafeToCanonicalize(paths) {
      forall p ensures CoveredBy(kept, p) <==> CoveredBy(paths, p) {
        if s :| s in paths && Covers(s, p) {
          SafeScopeStaysCovered(sorted, paths, s, p);
        }
      }
    } else {
      var p :| p in paths && IsOutermost(paths, p) && HasEarlyChild(paths, p);
      EarlyChildDropsParent(sorted, paths, p);
      var unnamed := FreshPathBelow(paths, p);
      assert CoveredBy(paths, unnamed);
      if s :| s in kept && Covers(s, unnamed) {
        assert s.subtree && s.parts <= p.parts;
        assert s.parts != p.parts;
        assert StrictlyUnder(p, s);
      }
    }
  }

  lemma SafeScopeStaysCovered(sorted: seq<Scope>, paths: seq<Scope>, s: Scope, p: Path)
    requires IsSortedListing(sorted, paths) && AllNormal(paths) && SafeToCanonicalize(paths)
    requires s in paths && Covers(s, p)
    ensures CoveredBy(Kept(sorted), p)
  {
    if s.subtree {
      var outermost := HasOutermost(paths, s);
      OutermostIsKept(sorted, paths, outermost);
      assert Covers(outermost, p);
    } else {
      var j :| 0 <= j < |sorted| && sorted[j] == s;
      KeptMembers(sorted, s);
      if Swallowed(Kept(sorted[..j]), s) {
        var parent := SwallowedBy(Kept(sorted[..j]), s);
        KeptMembers(sorted[..j], parent);
        assert parent in sorted;
        var outermost := HasOutermost(paths, parent);
        OutermostIsKept(sorted, paths, outermost);
        assert Covers(outermost, p);
      } else {
        assert KeptAt(sorted, s, j);
      }
    }
  }

  predicate LiesInside(kept: seq<Scope>, s: Scope) {
    exists parent | parent in kept :: parent.subtree && parent.parts <= s.parts
  }

  lemma KeptInPrefix(sorted: seq<Scope>, x: Scope, n: nat)
    requires n <= |sorted| && x in Kept(sorted[..n])
    ensures x in Kept(sorted) && x in sorted
  {
    KeptMembers(sorted[..n], x);
    var i: nat :| KeptAt(sorted[..n], x, i);
    KeptAtPrefix(sorted, x, n, i);
    KeptMembers(sorted, x);
  }

  lemma DroppedFileLiesInside(sorted: seq<Scope>, s: Scope)
    requires s in sorted && s !in Kept(sorted) && !s.subtree
    ensures LiesInside(Kept(sorted), s)
  {
    hide PathsOverlap, Kept;
    var j :| 0 <= j < |sorted| && sorted[j] == s;
    KeptMembers(sorted, s);
    assert !KeptAt(sorted, s, j);
    var parent := SwallowedBy(Kept(sorted[..j]), s);
    KeptInPrefix(sorted, parent, j);
  }

  /** Every dropped scope lies inside a kept subtree exactly under the condition that keeps coverage. */
  lemma DroppedLiesInsideIff(paths: seq<Scope>)
    requires AllNormal(paths)
    ensures (forall s | s in paths && s !in Canonical(paths) :: LiesInside(Canonical(paths), s)) <==> SafeToCanonicalize(paths)
  {
    hide Kept, SortBy, WithoutRepeats, AllNormal, HasEarlyChild;
    var sorted := SortBy(RendersAtMost, WithoutRepeats(paths));
    ListingIsSorted(paths);
    if SafeToCanonicalize(paths) {
      forall s | s in paths && s !in Kept(sorted) ensures LiesInside(Kept(sorted), s) {
        if s.subtree {
          var outermost := HasOutermost(paths, s);
          OutermostIsKept(sorted, paths, outermost);
        } else {
          DroppedFileLiesInside(sorted, s);
        }
      }
    } else {
      var p :| p in paths && IsOutermost(paths, p) && HasEarlyChild(paths, p);
      EarlyChildDropsParent(sorted, paths, p);
      if LiesInside(Kept(sorted), p) {
        var parent :| parent in Kept(sorted) && parent.subtree && parent.parts <= p.parts;
        KeptIsRequested(sorted, paths, parent);
        assert false;
      }
    }
  }

  lemma KeptIsRequested(sorted: seq<Scope>, paths: seq<Scope>, s: Scope)
    requires IsSortedListing(sorted, paths) && s in Kept(sorted)
    ensures s in paths
  {
    KeptMembers(sorted, s);
  }

  /** In particular when every component starts with a character after `*`. */
  lemma OrdinaryNamesAreSafe(paths: seq<Scope>)
    requires forall s, c | s in paths && c in s.parts :: c != "" && c[0] > '*'
    ensures SafeToCanonicalize(paths)
  {
    forall p, d | p in paths && d in paths && StrictlyUnder(d, p) ensures !StartsBeforeStar(d.parts[|p.parts|]) {
      assert d.parts[|p.parts|] in d.parts;
    }
  }

  /** The failing family is not empty: a child named with a leading `!` hides its parent. */
  lemma EarlyChildExample()
    ensures var paths := [Scope(["a"], true), Scope(["a", "!b"], true)];
            AllNormal(paths) && !SameCoverage(Canonical(paths), paths)
  {
    var paths := [Scope(["a"], true), Scope(["a", "!b"], true)];
    assert paths[1] in paths && StrictlyUnder(paths[1], paths[0]) && StartsBeforeStar(paths[1].parts[1]);
    assert paths[0] in paths && IsOutermost(paths, paths[0]) && HasEarlyChild(paths, paths[0]);
    CanonicalKeepsCoverageIff(paths);
  }
}
