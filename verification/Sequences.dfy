/** Sums, selections and stable sorting of sequences, shared by the planner and its proofs. */
module Sequences {

  datatype Option<+T> = None | Some(value: T)

  ghost predicate Distinct<T>(s: seq<T>) {
    forall i, j :: 0 <= i < j < |s| ==> s[i] != s[j]
  }

  // ---------------------------------------------------------------- sums

  /** The total of `f` over `s`, accumulated from the left. */
  function Sum<T>(f: T -> int, s: seq<T>): int {
    if s == [] then 0 else Sum(f, s[..|s|-1]) + f(s[|s|-1])
  }

  lemma SumSnoc<T>(f: T -> int, s: seq<T>, x: T)
    ensures Sum(f, s + [x]) == Sum(f, s) + f(x)
  {
    assert (s + [x])[..|s|] == s;
  }

  lemma {:induction false} SumConcat<T>(f: T -> int, a: seq<T>, b: seq<T>)
    ensures Sum(f, a + b) == Sum(f, a) + Sum(f, b)
  {
    if b == [] {
      assert a + b == a;
    } else {
      var init, x := b[..|b|-1], b[|b|-1];
      assert a + b == (a + init) + [x] && b == init + [x];
      SumSnoc(f, a + init, x);
      SumConcat(f, a, init);
    }
  }

  lemma {:induction false} SumCons<T>(f: T -> int, x: T, s: seq<T>)
    ensures Sum(f, [x] + s) == f(x) + Sum(f, s)
  {
    SumConcat(f, [x], s);
    assert Sum(f, [x]) == f(x);
  }

  /** Removing the element at `i` removes its contribution. */
  lemma SumWithout<T>(f: T -> int, s: seq<T>, i: nat)
    requires i < |s|
    ensures Sum(f, s) == Sum(f, s[..i] + s[i+1..]) + f(s[i])
  {
    var before, rest := s[..i], s[i+1..];
    SplitAround(s, i);
    SumConcat(f, before, [s[i]] + rest);
    SumCons(f, s[i], rest);
    SumConcat(f, before, rest);
  }

  lemma SplitAround<T>(s: seq<T>, i: nat)
    requires i < |s|
    ensures s == s[..i] + ([s[i]] + s[i+1..])
  {}

  lemma SplitAt<T>(s: seq<T>, i: nat)
    requires i <= |s|
    ensures s == s[..i] + s[i..]
  {}

  lemma PrefixSnoc<T>(s: seq<T>, i: nat)
    requires i < |s|
    ensures s[..i+1] == s[..i] + [s[i]] && s[..i+1][..i] == s[..i]
  {}

  lemma PermutedLength<T>(a: seq<T>, b: seq<T>)
    requires multiset(a) == multiset(b)
    ensures |a| == |b|
  {
    assert |a| == |multiset(a)| == |multiset(b)| == |b|;
  }

  lemma {:induction false} SumPermuted<T>(f: T -> int, a: seq<T>, b: seq<T>)
    requires multiset(a) == multiset(b)
    ensures Sum(f, a) == Sum(f, b)
    decreases |a|
  {
    PermutedLength(a, b);
    if a != [] {
      var x := a[|a|-1];
      assert x in multiset(b);
      var i :| 0 <= i < |b| && b[i] == x;
      MultisetWithout(b, i);
      assert a == a[..|a|-1] + [x];
      SumPermuted(f, a[..|a|-1], b[..i] + b[i+1..]);
      SumWithout(f, b, i);
    }
  }

  lemma MultisetWithout<T>(s: seq<T>, i: nat)
    requires i < |s|
    ensures multiset(s[..i] + s[i+1..]) == multiset(s) - multiset{s[i]}
  {
    assert s == s[..i] + [s[i]] + s[i+1..];
  }

  lemma {:induction false} SumMonotone<T>(f: T -> int, g: T -> int, s: seq<T>)
    requires forall x :: x in s ==> f(x) <= g(x)
    ensures Sum(f, s) <= Sum(g, s)
  {
    if s != [] { SumMonotone(f, g, s[..|s|-1]); }
  }

  lemma {:induction false} SumNonNegative<T>(f: T -> int, s: seq<T>)
    requires forall x :: x in s ==> f(x) >= 0
    ensures Sum(f, s) >= 0
  {
    if s != [] { SumNonNegative(f, s[..|s|-1]); }
  }

  /** A prefix of a sequence of non-negative terms sums to no more than the whole. */
  lemma SumPrefix<T>(f: T -> int, s: seq<T>, n: nat)
    requires n <= |s|
    requires forall x :: x in s ==> f(x) >= 0
    ensures Sum(f, s[..n]) <= Sum(f, s)
  {
    assert s == s[..n] + s[n..];
    SumConcat(f, s[..n], s[n..]);
    SumNonNegative(f, s[n..]);
  }

  // ---------------------------------------------------------------- selections

  /** The members of `s` that lie in `keep`, in the order of `s`. */
  function Select<T(==)>(s: seq<T>, keep: set<T>): seq<T> {
    if s == [] then []
    else
      var init := Select(s[..|s|-1], keep);
      if s[|s|-1] in keep then init + [s[|s|-1]] else init
  }

  lemma SelectSnoc<T>(s: seq<T>, x: T, keep: set<T>)
    ensures Select(s + [x], keep) == if x in keep then Select(s, keep) + [x] else Select(s, keep)
  {
    assert (s + [x])[..|s|] == s;
  }

  lemma {:induction false} SelectMembers<T>(s: seq<T>, keep: set<T>)
    ensures |Select(s, keep)| <= |s|
    ensures forall x :: x in Select(s, keep) <==> x in s && x in keep
  {
    if s != [] {
      SelectMembers(s[..|s|-1], keep);
      assert s == s[..|s|-1] + [s[|s|-1]];
    }
  }

  lemma {:induction false} SelectDistinct<T>(s: seq<T>, keep: set<T>)
    requires Distinct(s)
    ensures Distinct(Select(s, keep))
  {
    if s != [] {
      SelectDistinct(s[..|s|-1], keep);
      SelectMembers(s[..|s|-1], keep);
    }
  }

  lemma {:induction false} SelectAll<T>(s: seq<T>, keep: set<T>)
    requires forall x :: x in s ==> x in keep
    ensures Select(s, keep) == s
  {
    if s != [] { SelectAll(s[..|s|-1], keep); }
  }

  lemma {:induction false} SelectConcat<T>(a: seq<T>, b: seq<T>, keep: set<T>)
    ensures Select(a + b, keep) == Select(a, keep) + Select(b, keep)
  {
    if b == [] {
      assert a + b == a;
    } else {
      var init, x := b[..|b|-1], b[|b|-1];
      assert a + b == (a + init) + [x] && b == init + [x];
      SelectSnoc(a + init, x, keep);
      SelectConcat(a, init, keep);
    }
  }

  lemma SelectWithout<T>(s: seq<T>, i: nat, keep: set<T>)
    requires i < |s|
    ensures multiset(Select(s, keep)) == multiset(Select(s[..i] + s[i+1..], keep)) + multiset(Select([s[i]], keep))
  {
    assert s == s[..i] + [s[i]] + s[i+1..];
    SelectConcat(s[..i] + [s[i]], s[i+1..], keep);
    SelectConcat(s[..i], [s[i]], keep);
    SelectConcat(s[..i], s[i+1..], keep);
  }

  /** Selecting commutes with reordering. */
  lemma {:induction false} SelectPermuted<T>(a: seq<T>, b: seq<T>, keep: set<T>)
    requires multiset(a) == multiset(b)
    ensures multiset(Select(a, keep)) == multiset(Select(b, keep))
    decreases |a|
  {
    PermutedLength(a, b);
    if a != [] {
      var n := |a| - 1;
      assert a[n] in multiset(b);
      var i :| 0 <= i < |b| && b[i] == a[n];
      MultisetWithout(a, n);
      MultisetWithout(b, i);
      SelectPermuted(a[..n] + a[n+1..], b[..i] + b[i+1..], keep);
      SelectWithout(a, n, keep);
      SelectWithout(b, i, keep);
    }
  }

  /** Two distinct listings of the same members are reorderings of each other. */
  lemma {:induction false} DistinctSameMembers<T>(a: seq<T>, b: seq<T>)
    requires Distinct(a) && Distinct(b)
    requires forall x :: x in a <==> x in b
    ensures multiset(a) == multiset(b)
  {
    forall x ensures multiset(a)[x] == multiset(b)[x] {
      DistinctMultiplicity(a, x);
      DistinctMultiplicity(b, x);
    }
  }

  lemma {:induction false} DistinctMultiplicity<T>(s: seq<T>, x: T)
    requires Distinct(s)
    ensures multiset(s)[x] == if x in s then 1 else 0
  {
    if s != [] {
      assert s == s[..|s|-1] + [s[|s|-1]];
      DistinctMultiplicity(s[..|s|-1], x);
    }
  }

  lemma DistinctPermuted<T>(a: seq<T>, b: seq<T>)
    requires multiset(a) == multiset(b) && Distinct(a)
    ensures Distinct(b)
  {
    forall i, j | 0 <= i < j < |b| ensures b[i] != b[j] {
      DistinctMultiplicity(a, b[i]);
      if b[i] == b[j] {
        RepeatedMultiplicity(b, i, j);
      }
    }
  }

  lemma RepeatedMultiplicity<T>(s: seq<T>, i: nat, j: nat)
    requires i < j < |s| && s[i] == s[j]
    ensures multiset(s)[s[i]] >= 2
  {
    assert s == s[..j] + [s[j]] + s[j+1..];
    assert s[..j][i] == s[i];
    assert s[i] in multiset(s[..j]);
  }

  // ---------------------------------------------------------------- stable sorting

  function Insert<T>(f: T -> int, x: T, s: seq<T>): seq<T> {
    if s == [] || f(x) <= f(s[0]) then [x] + s else [s[0]] + Insert(f, x, s[1..])
  }

  /** `s` in non-decreasing order of `f`; members that tie keep their order. */
  function SortBy<T>(f: T -> int, s: seq<T>): seq<T> {
    if s == [] then [] else Insert(f, s[0], SortBy(f, s[1..]))
  }

  ghost predicate Ascending<T>(f: T -> int, s: seq<T>) {
    forall i, j :: 0 <= i < j < |s| ==> f(s[i]) <= f(s[j])
  }

  lemma {:induction false} InsertMultiset<T>(f: T -> int, x: T, s: seq<T>)
    ensures multiset(Insert(f, x, s)) == multiset{x} + multiset(s)
  {
    if s != [] && f(x) > f(s[0]) {
      InsertMultiset(f, x, s[1..]);
      assert s == [s[0]] + s[1..];
    }
  }

  lemma {:induction false} InsertMembers<T>(f: T -> int, x: T, s: seq<T>)
    ensures forall y :: y in Insert(f, x, s) ==> y == x || y in s
  {
    if s != [] && f(x) > f(s[0]) {
      InsertMembers(f, x, s[1..]);
    }
  }

  lemma {:induction false} InsertAscending<T>(f: T -> int, x: T, s: seq<T>)
    requires Ascending(f, s)
    ensures Ascending(f, Insert(f, x, s))
  {
    if s != [] && f(x) > f(s[0]) {
      var t := Insert(f, x, s[1..]);
      InsertAscending(f, x, s[1..]);
      InsertMembers(f, x, s[1..]);
      forall j | 0 <= j < |t| ensures f(s[0]) <= f(t[j]) {
        assert t[j] in t;
      }
    }
  }

  lemma {:induction false} SortBySorts<T>(f: T -> int, s: seq<T>)
    ensures Ascending(f, SortBy(f, s))
    ensures multiset(SortBy(f, s)) == multiset(s)
    ensures |SortBy(f, s)| == |s|
  {
    if s != [] {
      SortBySorts(f, s[1..]);
      InsertAscending(f, s[0], SortBy(f, s[1..]));
      InsertMultiset(f, s[0], SortBy(f, s[1..]));
      assert s == [s[0]] + s[1..];
    }
    PermutedLength(SortBy(f, s), s);
  }

  lemma SortByMembers<T>(f: T -> int, s: seq<T>)
    ensures forall x :: x in SortBy(f, s) <==> x in s
  {
    SortBySorts(f, s);
    forall x ensures x in SortBy(f, s) <==> x in s {
      assert x in SortBy(f, s) <==> x in multiset(SortBy(f, s));
      assert x in s <==> x in multiset(s);
    }
  }

  /** The members of `s` with `f` equal to `d`, in order. */
  ghost function Level<T>(f: T -> int, s: seq<T>, d: int): seq<T> {
    if s == [] then []
    else if f(s[0]) == d then [s[0]] + Level(f, s[1..], d)
    else Level(f, s[1..], d)
  }

  lemma LevelCons<T>(f: T -> int, x: T, s: seq<T>, d: int)
    ensures Level(f, [x] + s, d) == if f(x) == d then [x] + Level(f, s, d) else Level(f, s, d)
  {
    assert ([x] + s)[1..] == s;
  }

  lemma {:induction false} InsertLevel<T>(f: T -> int, x: T, s: seq<T>, d: int)
    requires Ascending(f, s)
    ensures Level(f, Insert(f, x, s), d) == if f(x) == d then [x] + Level(f, s, d) else Level(f, s, d)
  {
    if s == [] || f(x) <= f(s[0]) {
      LevelCons(f, x, s, d);
    } else {
      AscendingTail(f, s);
      InsertLevel(f, x, s[1..], d);
      LevelCons(f, s[0], Insert(f, x, s[1..]), d);
    }
  }

  /** Stability: members at the same distance keep their original order. */
  lemma {:induction false} SortByStable<T>(f: T -> int, s: seq<T>, d: int)
    ensures Level(f, SortBy(f, s), d) == Level(f, s, d)
  {
    if s != [] {
      SortByStable(f, s[1..], d);
      SortBySorts(f, s[1..]);
      InsertLevel(f, s[0], SortBy(f, s[1..]), d);
    }
  }

  /** No two positions of `s` are at the same value of `f`. */
  ghost predicate NoTies<T>(f: T -> int, s: seq<T>) {
    forall i, j :: 0 <= i < j < |s| ==> f(s[i]) != f(s[j])
  }

  lemma SortedSameHead<T>(f: T -> int, a: seq<T>, b: seq<T>)
    requires Ascending(f, a) && Ascending(f, b) && multiset(a) == multiset(b)
    requires NoTies(f, a) && a != [] && b != []
    ensures a[0] == b[0]
  {
    assert a[0] in multiset(b) && b[0] in multiset(a);
    var i :| 0 <= i < |b| && b[i] == a[0];
    var j :| 0 <= j < |a| && a[j] == b[0];
  }

  lemma AscendingTail<T>(f: T -> int, s: seq<T>)
    requires Ascending(f, s) && s != []
    ensures Ascending(f, s[1..])
    ensures NoTies(f, s) ==> NoTies(f, s[1..])
  {}

  lemma TailMultiset<T>(s: seq<T>)
    requires s != []
    ensures multiset(s[1..]) == multiset(s) - multiset{s[0]}
  {
    assert s == [s[0]] + s[1..];
  }

  lemma PermutedTail<T>(a: seq<T>, b: seq<T>)
    requires a != [] && b != [] && a[0] == b[0] && multiset(a) == multiset(b)
    ensures multiset(a[1..]) == multiset(b[1..])
  {
    TailMultiset(a);
    TailMultiset(b);
  }

  /** With no ties there is only one sorted order. */
  lemma {:induction false} SortedUnique<T>(f: T -> int, a: seq<T>, b: seq<T>)
    requires Ascending(f, a) && Ascending(f, b) && multiset(a) == multiset(b)
    requires NoTies(f, a)
    ensures a == b
    decreases |a|
  {
    PermutedLength(a, b);
    if a != [] {
      SortedSameHead(f, a, b);
      PermutedTail(a, b);
      AscendingTail(f, a);
      AscendingTail(f, b);
      SortedUnique(f, a[1..], b[1..]);
      assert a == [a[0]] + a[1..] && b == [b[0]] + b[1..];
    }
  }
}
