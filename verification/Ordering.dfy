/** Strings compared the way Python compares them, and sorting over any total preorder. */
module Ordering {

  /** Code point by code point; a proper prefix comes first. */
  predicate Before(a: string, b: string) {
    if b == "" then false
    else if a == "" then true
    else if a[0] != b[0] then a[0] < b[0]
    else Before(a[1..], b[1..])
  }

  predicate AtMost(a: string, b: string) {
    a == b || Before(a, b)
  }

  lemma {:induction false} BeforeIsTotal(a: string, b: string)
    ensures Before(a, b) || a == b || Before(b, a)
    ensures !(Before(a, b) && Before(b, a)) && !Before(a, a)
  {
    if a != "" {
      BeforeIsTotal(a[1..], if b == "" then "" else b[1..]);
      if b != "" && a[0] == b[0] && a[1..] == b[1..] {
        assert a == [a[0]] + a[1..] == [b[0]] + b[1..] == b;
      }
    }
  }

  lemma {:induction false} BeforeIsTransitive(a: string, b: string, c: string)
    requires Before(a, b) && Before(b, c)
    ensures Before(a, c)
  {
    if a != "" && a[0] == b[0] == c[0] {
      BeforeIsTransitive(a[1..], b[1..], c[1..]);
    }
  }

  /** Comparison looks only at what follows a common prefix. */
  lemma {:induction false} BeforeAfterCommonPrefix(common: string, a: string, b: string)
    ensures Before(common + a, common + b) == Before(a, b)
  {
    if common == "" {
      assert common + a == a && common + b == b;
    } else {
      assert (common + a)[1..] == common[1..] + a;
      assert (common + b)[1..] == common[1..] + b;
      BeforeAfterCommonPrefix(common[1..], a, b);
    }
  }

  ghost predicate TotalPreorder<T(!new)>(le: (T, T) -> bool) {
    && (forall a, b :: le(a, b) || le(b, a))
    && (forall a, b, c :: le(a, b) && le(b, c) ==> le(a, c))
  }

  lemma AtMostIsTotalPreorder()
    ensures TotalPreorder(AtMost)
  {
    forall a, b ensures AtMost(a, b) || AtMost(b, a) {
      BeforeIsTotal(a, b);
    }
    forall a, b, c | AtMost(a, b) && AtMost(b, c) ensures AtMost(a, c) {
      if Before(a, b) && Before(b, c) {
        BeforeIsTransitive(a, b, c);
      }
    }
  }

  predicate Distinct<T(==)>(s: seq<T>) {
    forall i, j | 0 <= i < j < |s| :: s[i] != s[j]
  }

  predicate SortedBy<T>(le: (T, T) -> bool, s: seq<T>) {
    forall i, j | 0 <= i < j < |s| :: le(s[i], s[j])
  }

  function InsertBy<T>(le: (T, T) -> bool, x: T, s: seq<T>): seq<T> {
    if s == [] || le(x, s[0]) then [x] + s else [s[0]] + InsertBy(le, x, s[1..])
  }

  function SortBy<T>(le: (T, T) -> bool, s: seq<T>): seq<T> {
    if s == [] then [] else InsertBy(le, s[0], SortBy(le, s[1..]))
  }

  function WithoutRepeats<T(==,!new)>(s: seq<T>): (r: seq<T>)
    ensures Distinct(r) && forall x :: x in r <==> x in s
  {
    if s == [] then []
    else
      assert s == [s[0]] + s[1..];
      var rest := WithoutRepeats(s[1..]);
      if s[0] in rest then rest else [s[0]] + rest
  }

  /** The identifiers of `s` in order, each once. */
  function SortedIds(s: seq<string>): seq<string> {
    SortBy(AtMost, WithoutRepeats(s))
  }

  lemma PrependSorted<T>(le: (T, T) -> bool, x: T, s: seq<T>)
    requires SortedBy(le, s) && forall y | y in s :: le(x, y)
    ensures SortedBy(le, [x] + s)
  {
    var r := [x] + s;
    forall i, j | 0 <= i < j < |r| ensures le(r[i], r[j]) {
      assert r[j] == s[j - 1];
      assert i == 0 || r[i] == s[i - 1];
    }
  }

  lemma {:induction false} InsertByCorrect<T(!new)>(le: (T, T) -> bool, x: T, s: seq<T>)
    requires TotalPreorder(le) && SortedBy(le, s)
    ensures SortedBy(le, InsertBy(le, x, s))
    ensures multiset(InsertBy(le, x, s)) == multiset(s) + multiset{x}
  {
    if s == [] || le(x, s[0]) {
      forall y | y in s ensures le(x, y) {
        var i :| 0 <= i < |s| && s[i] == y;
        assert i == 0 || le(s[0], y);
      }
      PrependSorted(le, x, s);
    } else {
      assert s == [s[0]] + s[1..];
      InsertByCorrect(le, x, s[1..]);
      var rest := InsertBy(le, x, s[1..]);
      forall y | y in rest ensures le(s[0], y) {
        assert y in multiset(rest);
        assert y == x || y in s[1..];
      }
      PrependSorted(le, s[0], rest);
    }
  }

  lemma {:induction false} SortByCorrect<T(!new)>(le: (T, T) -> bool, s: seq<T>)
    requires TotalPreorder(le)
    ensures SortedBy(le, SortBy(le, s))
    ensures multiset(SortBy(le, s)) == multiset(s)
    ensures |SortBy(le, s)| == |s|
  {
    if s != [] {
      assert s == [s[0]] + s[1..];
      SortByCorrect(le, s[1..]);
      InsertByCorrect(le, s[0], SortBy(le, s[1..]));
    }
    assert |multiset(SortBy(le, s))| == |multiset(s)|;
  }

  /** Sorting leaves a sorted sequence alone. */
  lemma {:induction false} SortedIsFixed<T>(le: (T, T) -> bool, s: seq<T>)
    requires SortedBy(le, s)
    ensures SortBy(le, s) == s
  {
    if s != [] {
      assert forall i, j | 0 <= i < j < |s[1..]| :: le(s[1..][i], s[1..][j]);
      SortedIsFixed(le, s[1..]);
      if |s| > 1 {
        assert le(s[0], s[1]);
      }
      assert s == [s[0]] + s[1..];
    }
  }

  lemma SortedHeadIsLeast<T>(le: (T, T) -> bool, s: seq<T>, y: T)
    requires SortedBy(le, s) && y in s
    ensures y == s[0] || le(s[0], y)
  {
    var i :| 0 <= i < |s| && s[i] == y;
  }

  /** The order tells distinct elements of `s` apart. */
  ghost predicate Separates<T>(le: (T, T) -> bool, s: seq<T>) {
    forall x, y | x in s && y in s :: le(x, y) && le(y, x) ==> x == y
  }

  lemma TailIsSorted<T>(le: (T, T) -> bool, s: seq<T>)
    requires s != [] && SortedBy(le, s) && Separates(le, s)
    ensures SortedBy(le, s[1..]) && Separates(le, s[1..])
    ensures multiset(s[1..]) == multiset(s) - multiset{s[0]}
  {
    assert s == [s[0]] + s[1..];
    assert forall x | x in s[1..] :: x in s;
  }

  /** Where the order separates distinct elements, a multiset has one sorted listing. */
  lemma {:induction false} SortedListingIsUnique<T>(le: (T, T) -> bool, s: seq<T>, t: seq<T>)
    requires SortedBy(le, s) && SortedBy(le, t) && multiset(s) == multiset(t) && Separates(le, s) && Separates(le, t)
    ensures s == t
  {
    if s == [] {
      assert |multiset(t)| == 0;
    } else {
      assert s[0] in multiset(t) && |multiset(t)| == |multiset(s)|;
      assert t[0] in multiset(s);
      SortedHeadIsLeast(le, s, t[0]);
      SortedHeadIsLeast(le, t, s[0]);
      assert s[0] == t[0];
      TailIsSorted(le, s);
      TailIsSorted(le, t);
      SortedListingIsUnique(le, s[1..], t[1..]);
      assert s == [s[0]] + s[1..] && t == [t[0]] + t[1..];
    }
  }

  lemma {:induction false} PermutationKeepsDistinct<T>(s: seq<T>, t: seq<T>)
    requires Distinct(s) && multiset(s) == multiset(t)
    ensures Distinct(t)
  {
    DistinctIsMultiplicityOne(s);
    MultiplicityOneIsDistinct(t);
  }

  lemma {:induction false} DistinctIsMultiplicityOne<T>(s: seq<T>)
    requires Distinct(s)
    ensures forall x :: multiset(s)[x] <= 1
  {
    if s != [] {
      assert s == [s[0]] + s[1..];
      DistinctIsMultiplicityOne(s[1..]);
      assert s[0] !in multiset(s[1..]);
    }
  }

  lemma {:induction false} MultiplicityOneIsDistinct<T>(s: seq<T>)
    requires forall x :: multiset(s)[x] <= 1
    ensures Distinct(s)
  {
    forall i, j | 0 <= i < j < |s| ensures s[i] != s[j] {
      assert s == s[..j] + s[j..];
      assert s[i] in multiset(s[..j]);
      assert s[j] in multiset(s[j..]);
      assert multiset(s)[s[i]] == multiset(s[..j])[s[i]] + multiset(s[j..])[s[i]];
    }
  }

  /** A listing without repeats has as many entries as the set it lists. */
  lemma {:induction false} DistinctLength<T>(s: seq<T>)
    requires Distinct(s)
    ensures |set x | x in s| == |s|
  {
    if s == [] {
      assert (set x | x in s) == {};
    } else {
      DistinctLength(s[1..]);
      assert s == [s[0]] + s[1..];
      assert (set x | x in s) == (set x | x in s[1..]) + {s[0]};
    }
  }

  lemma SubsetIsNoLarger<T>(a: set<T>, b: set<T>)
    requires a <= b
    ensures |a| <= |b|
    ensures |a| == |b| ==> a == b
  {
    assert b == a + (b - a);
  }

  lemma SortedIdsCorrect(s: seq<string>)
    ensures Distinct(SortedIds(s)) && SortedBy(AtMost, SortedIds(s)) && forall x :: x in SortedIds(s) <==> x in s
  {
    var unique := WithoutRepeats(s);
    AtMostIsTotalPreorder();
    SortByCorrect(AtMost, unique);
    PermutationKeepsDistinct(unique, SortBy(AtMost, unique));
    forall x ensures x in SortedIds(s) <==> x in unique {
      assert x in multiset(SortedIds(s)) <==> x in multiset(unique);
    }
  }
}
