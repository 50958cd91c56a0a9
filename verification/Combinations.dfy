/**
 * The k-combination generator: an index array advanced in place, from the first k indices to the last.
 * The specification lists all combinations by recursion on the first index.
 */
module Combinations {
  import opened Sequences

  /** `t` is a strictly increasing choice of k indices from lo, lo+1, ..., n-1. */
  ghost predicate IsCombination(t: seq<int>, lo: int, n: int, k: nat) {
    && |t| == k
    && (forall i :: 0 <= i < k ==> lo <= t[i] < n)
    && (forall i, j :: 0 <= i < j < k ==> t[i] < t[j])
  }

  /** Lexicographic order: `a` and `b` agree before some position, where `a` is smaller. */
  ghost predicate LexLess(a: seq<int>, b: seq<int>) {
    exists p :: LexLessAt(a, b, p)
  }

  ghost predicate LexLessAt(a: seq<int>, b: seq<int>, p: int) {
    && 0 <= p < |a| && p < |b|
    && (forall i :: 0 <= i < p ==> a[i] == b[i])
    && a[p] < b[p]
  }

  function Prepend(x: int, ts: seq<seq<int>>): (r: seq<seq<int>>)
    ensures |r| == |ts|
    ensures forall i :: 0 <= i < |ts| ==> r[i] == [x] + ts[i]
  {
    seq(|ts|, i requires 0 <= i < |ts| => [x] + ts[i])
  }

  /** All combinations of k indices from lo..n-1: those starting with lo, then the others. */
  function Tuples(lo: int, n: int, k: nat): seq<seq<int>>
    decreases n - lo, k
  {
    if k == 0 then [[]]
    else if n - lo < k then []
    else Prepend(lo, Tuples(lo + 1, n, k - 1)) + Tuples(lo + 1, n, k)
  }

  lemma {:induction false} TuplesAreCombinations(lo: int, n: int, k: nat)
    ensures forall i :: 0 <= i < |Tuples(lo, n, k)| ==> IsCombination(Tuples(lo, n, k)[i], lo, n, k)
    decreases n - lo, k
  {
    if k != 0 && n - lo >= k {
      TuplesAreCombinations(lo + 1, n, k - 1);
      TuplesAreCombinations(lo + 1, n, k);
    }
  }

  /** A combination either starts with lo or uses only the later indices. */
  lemma CombinationSplit(t: seq<int>, lo: int, n: int, k: nat)
    requires IsCombination(t, lo, n, k) && k > 0
    ensures n - lo >= k
    ensures IsCombination(t, lo + 1, n, k) || (t == [lo] + t[1..] && IsCombination(t[1..], lo + 1, n, k - 1))
  {
    CombinationSpread(t, lo, n, k, 0, k - 1);
    if t[0] == lo {
      assert IsCombination(t[1..], lo + 1, n, k - 1);
    } else {
      assert IsCombination(t, lo + 1, n, k);
    }
  }

  lemma PrependListed(lo: int, n: int, k: nat, t: seq<int>)
    requires k > 0 && n - lo >= k && t in Tuples(lo + 1, n, k - 1)
    ensures [lo] + t in Tuples(lo, n, k)
  {
    var ts := Tuples(lo + 1, n, k - 1);
    var i :| 0 <= i < |ts| && ts[i] == t;
    assert (Prepend(lo, ts) + Tuples(lo + 1, n, k))[i] == [lo] + t;
  }

  lemma RestListed(lo: int, n: int, k: nat, t: seq<int>)
    requires k > 0 && n - lo >= k && t in Tuples(lo + 1, n, k)
    ensures t in Tuples(lo, n, k)
  {}

  lemma {:induction false} EveryCombinationListed(t: seq<int>, lo: int, n: int, k: nat)
    requires IsCombination(t, lo, n, k)
    ensures t in Tuples(lo, n, k)
    decreases n - lo, k
  {
    if k == 0 {
      assert Tuples(lo, n, k)[0] == t;
    } else {
      CombinationSplit(t, lo, n, k);
      if IsCombination(t, lo + 1, n, k) {
        EveryCombinationListed(t, lo + 1, n, k);
        RestListed(lo, n, k, t);
      } else {
        EveryCombinationListed(t[1..], lo + 1, n, k - 1);
        PrependListed(lo, n, k, t[1..]);
      }
    }
  }

  /** Entries of a combination are spread at least as far apart as their positions. */
  lemma {:induction false} CombinationSpread(t: seq<int>, lo: int, n: int, k: nat, i: nat, j: nat)
    requires IsCombination(t, lo, n, k) && i <= j < k
    ensures t[j] >= t[i] + (j - i)
    decreases j - i
  {
    if i < j { CombinationSpread(t, lo, n, k, i, j - 1); }
  }

  /** So the entry at position i is at most n - k + i, the bound the generator tests. */
  lemma CombinationBound(t: seq<int>, n: int, k: nat, i: nat)
    requires IsCombination(t, 0, n, k) && i < k
    ensures i <= t[i] <= n - k + i
  {
    CombinationSpread(t, 0, n, k, i, k - 1);
    CombinationSpread(t, 0, n, k, 0, i);
  }

  lemma LexPrepend(x: int, a: seq<int>, b: seq<int>)
    requires LexLess(a, b)
    ensures LexLess([x] + a, [x] + b)
  {
    var p :| LexLessAt(a, b, p);
    assert LexLessAt([x] + a, [x] + b, p + 1);
  }

  /** Every listed tuple comes lexicographically before the ones listed after it. */
  ghost predicate LexAscending(ts: seq<seq<int>>) {
    forall i, j :: 0 <= i < j < |ts| ==> LexLess(ts[i], ts[j])
  }

  lemma PrependAscends(x: int, ts: seq<seq<int>>)
    requires LexAscending(ts)
    ensures LexAscending(Prepend(x, ts))
  {
    forall i, j | 0 <= i < j < |ts| ensures LexLess(Prepend(x, ts)[i], Prepend(x, ts)[j]) {
      LexPrepend(x, ts[i], ts[j]);
    }
  }

  lemma {:induction false} TuplesAscend(lo: int, n: int, k: nat)
    ensures LexAscending(Tuples(lo, n, k))
    decreases n - lo, k
  {
    if k != 0 && n - lo >= k {
      var first, rest := Prepend(lo, Tuples(lo + 1, n, k - 1)), Tuples(lo + 1, n, k);
      TuplesAscend(lo + 1, n, k - 1);
      TuplesAscend(lo + 1, n, k);
      PrependAscends(lo, Tuples(lo + 1, n, k - 1));
      TuplesAreCombinations(lo + 1, n, k);
      forall i, j | 0 <= i < |first| && 0 <= j < |rest| ensures LexLess(first[i], rest[j]) {
        assert IsCombination(rest[j], lo + 1, n, k);
        assert LexLessAt(first[i], rest[j], 0);
      }
      ConcatAscends(first, rest);
    }
  }

  lemma ConcatAscends(a: seq<seq<int>>, b: seq<seq<int>>)
    requires LexAscending(a) && LexAscending(b)
    requires forall i, j :: 0 <= i < |a| && 0 <= j < |b| ==> LexLess(a[i], b[j])
    ensures LexAscending(a + b)
  {}

  lemma LexAsymmetric(a: seq<int>, b: seq<int>, p: int, q: int)
    requires LexLessAt(a, b, p)
    ensures !LexLessAt(b, a, q)
  {}

  lemma LexIrreflexive(a: seq<int>, b: seq<int>)
    requires LexLess(a, b)
    ensures a != b && !LexLess(b, a)
  {
    var p :| LexLessAt(a, b, p);
    forall q ensures !LexLessAt(b, a, q) {
      LexAsymmetric(a, b, p, q);
    }
  }

  /** The generator never repeats a combination. */
  lemma TuplesNeverRepeat(n: int, k: nat)
    ensures Distinct(Tuples(0, n, k))
  {
    var ts := Tuples(0, n, k);
    TuplesAscend(0, n, k);
    forall i, j | 0 <= i < j < |ts| ensures ts[i] != ts[j] {
      LexIrreflexive(ts[i], ts[j]);
    }
  }

  // ---------------------------------------------------------------- one step of the generator

  /** Position p can still move up and every later position is at its last value. */
  ghost predicate IsPivot(t: seq<int>, n: int, k: nat, p: int) {
    && 0 <= p < k == |t|
    && t[p] < n - k + p
    && forall i :: p < i < k ==> t[i] == n - k + i
  }

  /** `u` is `t` with position p moved up by one and the later positions packed behind it. */
  ghost predicate IsBumped(t: seq<int>, u: seq<int>, p: int) {
    && 0 <= p < |t| == |u|
    && (forall i :: 0 <= i < p ==> u[i] == t[i])
    && (forall i :: p <= i < |t| ==> u[i] == t[p] + 1 + (i - p))
  }

  lemma BumpedIsCombination(t: seq<int>, u: seq<int>, n: int, k: nat, p: int)
    requires IsCombination(t, 0, n, k) && IsPivot(t, n, k, p) && IsBumped(t, u, p)
    ensures IsCombination(u, 0, n, k) && LexLess(t, u)
  {
    assert LexLessAt(t, u, p);
  }

  /** Nothing lies strictly between a combination and its bump. */
  lemma BumpedIsNext(t: seq<int>, u: seq<int>, c: seq<int>, n: int, k: nat, p: int)
    requires IsCombination(t, 0, n, k) && IsPivot(t, n, k, p) && IsBumped(t, u, p)
    requires IsCombination(c, 0, n, k) && LexLess(t, c)
    ensures !LexLess(c, u)
  {
    var q :| LexLessAt(t, c, q);
    CombinationBound(c, n, k, q);
    assert q <= p;
    forall r ensures !LexLessAt(c, u, r) {
      if q == p < r < k {
        CombinationSpread(c, 0, n, k, p, r);
      }
    }
  }

  /** With every position at its last value nothing is left to generate. */
  lemma LastIsGreatest(t: seq<int>, c: seq<int>, n: int, k: nat)
    requires IsCombination(t, 0, n, k) && IsCombination(c, 0, n, k)
    requires forall i :: 0 <= i < k ==> t[i] == n - k + i
    ensures !LexLess(t, c)
  {
    if q :| LexLessAt(t, c, q) {
      CombinationBound(c, n, k, q);
    }
  }

  /** The k indices from lo on. */
  function From(lo: int, k: nat): (t: seq<int>)
    ensures |t| == k && forall i :: 0 <= i < k ==> t[i] == lo + i
  {
    seq(k, i => lo + i)
  }

  lemma FromCons(lo: int, k: nat)
    requires k > 0
    ensures From(lo, k) == [lo] + From(lo + 1, k - 1)
  {}

  lemma {:induction false} FirstTuple(lo: int, n: int, k: nat)
    requires k <= n - lo
    ensures Tuples(lo, n, k) != []
    ensures Tuples(lo, n, k)[0] == From(lo, k)
    decreases k
  {
    if k > 0 {
      FirstTuple(lo + 1, n, k - 1);
      FromCons(lo, k);
    }
  }

  /** If t is the j-th listed combination, its bump is the (j+1)-th. */
  lemma BumpedIsListedNext(t: seq<int>, u: seq<int>, n: int, k: nat, p: int, j: nat)
    requires IsCombination(t, 0, n, k) && IsPivot(t, n, k, p) && IsBumped(t, u, p)
    requires j < |Tuples(0, n, k)| && Tuples(0, n, k)[j] == t
    ensures j + 1 < |Tuples(0, n, k)| && Tuples(0, n, k)[j + 1] == u
  {
    var ts := Tuples(0, n, k);
    BumpedIsCombination(t, u, n, k, p);
    EveryCombinationListed(u, 0, n, k);
    var m :| 0 <= m < |ts| && ts[m] == u;
    LexIrreflexive(t, u);
    TuplesAscend(0, n, k);
    assert m > j;
    if m > j + 1 {
      TuplesAreCombinations(0, n, k);
      assert IsCombination(ts[j + 1], 0, n, k);
      BumpedIsNext(t, u, ts[j + 1], n, k, p);
    }
  }

  /** A combination with no pivot is the last one listed. */
  lemma NoPivotIsLast(t: seq<int>, n: int, k: nat, j: nat)
    requires IsCombination(t, 0, n, k)
    requires forall i :: 0 <= i < k ==> t[i] == n - k + i
    requires j < |Tuples(0, n, k)| && Tuples(0, n, k)[j] == t
    ensures j + 1 == |Tuples(0, n, k)|
  {
    if j + 1 < |Tuples(0, n, k)| {
      TuplesAscend(0, n, k);
      TuplesAreCombinations(0, n, k);
      LastIsGreatest(t, Tuples(0, n, k)[j + 1], n, k);
    }
  }

  // ---------------------------------------------------------------- picking items by index

  function Pick<T>(items: seq<T>, t: seq<int>): (r: seq<T>)
    requires forall i :: 0 <= i < |t| ==> 0 <= t[i] < |items|
    ensures |r| == |t|
    ensures forall i :: 0 <= i < |t| ==> r[i] == items[t[i]]
  {
    seq(|t|, i requires 0 <= i < |t| => items[t[i]])
  }

  function PickAll<T>(items: seq<T>, ts: seq<seq<int>>): (r: seq<seq<T>>)
    requires forall j :: 0 <= j < |ts| ==> forall i :: 0 <= i < |ts[j]| ==> 0 <= ts[j][i] < |items|
    ensures |r| == |ts|
    ensures forall j :: 0 <= j < |ts| ==> r[j] == Pick(items, ts[j])
  {
    seq(|ts|, j requires 0 <= j < |ts| => Pick(items, ts[j]))
  }

  /** What the generator yields, in order: nothing when k is out of range. */
  function Combos<T>(items: seq<T>, k: int): seq<seq<T>> {
    if k <= 0 || k > |items| then []
    else
      TuplesAreCombinations(0, |items|, k);
      PickAll(items, Tuples(0, |items|, k))
  }

  /**
   * Advance the index array in place: find the rightmost index that can still move, move it, and pack the
   * following ones behind it. Returns false, changing nothing, when no index can move.
   */
  method Advance(idx: array<int>, n: nat) returns (more: bool)
    requires IsCombination(idx[..], 0, n, idx.Length)
    modifies idx
    ensures !more ==> idx[..] == old(idx[..])
    ensures !more ==> forall i :: 0 <= i < idx.Length ==> idx[i] == n - idx.Length + i
    ensures more ==> exists p :: IsPivot(old(idx[..]), n, idx.Length, p) && IsBumped(old(idx[..]), idx[..], p)
  {
    var k := idx.Length;
    ghost var t := idx[..];
    var pivot := k - 1;
    while pivot >= 0 && idx[pivot] == n - k + pivot
      invariant -1 <= pivot < k
      invariant forall i :: pivot < i < k ==> t[i] == n - k + i
    {
      pivot := pivot - 1;
    }
    if pivot < 0 { return false; }
    CombinationBound(t, n, k, pivot);
    idx[pivot] := idx[pivot] + 1;
    for i := pivot + 1 to k
      invariant forall m :: 0 <= m < pivot ==> idx[m] == t[m]
      invariant forall m :: pivot <= m < i ==> idx[m] == t[pivot] + 1 + (m - pivot)
    {
      idx[i] := idx[i - 1] + 1;
    }
    assert IsPivot(t, n, k, pivot) && IsBumped(t, idx[..], pivot);
    return true;
  }

  /** The generator, run to the end: what it yields is collected in order. */
  method Generate<T>(items: seq<T>, k: int) returns (out: seq<seq<T>>)
    ensures out == Combos(items, k)
  {
    out := [];
    if k <= 0 || k > |items| { return; }
    ghost var ts := Tuples(0, |items|, k);
    ghost var j := 0;
    TuplesAreCombinations(0, |items|, k);
    FirstTuple(0, |items|, k);
    var idx := new int[k](i => i);
    assert idx[..] == From(0, k);
    var more := true;
    while more
      invariant more ==> 0 <= j < |ts| && idx[..] == ts[j] && out == PickAll(items, ts)[..j]
      invariant !more ==> out == PickAll(items, ts)
      decreases |ts| - j, more
    {
      ghost var t := idx[..];
      assert IsCombination(t, 0, |items|, k);
      out := out + [Pick(items, idx[..])];
      assert out == PickAll(items, ts)[..j+1];
      more := Advance(idx, |items|);
      if more {
        ghost var p :| IsPivot(t, |items|, k, p) && IsBumped(t, idx[..], p);
        BumpedIsListedNext(t, idx[..], |items|, k, p, j);
        j := j + 1;
      } else {
        assert forall i :: 0 <= i < k ==> t[i] == idx[i];
        NoPivotIsLast(t, |items|, k, j);
      }
    }
  }

  // ---------------------------------------------------------------- subsets are combinations

  /** The positions of the members of `keep` in `s`. */
  function SelectIndices<T(==)>(s: seq<T>, keep: set<T>): seq<int> {
    if s == [] then []
    else
      var init := SelectIndices(s[..|s|-1], keep);
      if s[|s|-1] in keep then init + [|s|-1] else init
  }

  lemma CombinationSnoc(t: seq<int>, n: nat, k: nat)
    requires IsCombination(t, 0, n, k)
    ensures IsCombination(t, 0, n + 1, k) && IsCombination(t + [n], 0, n + 1, k + 1)
  {}

  /** Indices into a prefix pick the same items from the whole. */
  lemma PickFromPrefix<T>(s: seq<T>, t: seq<int>, k: nat)
    requires s != [] && IsCombination(t, 0, |s| - 1, k)
    ensures Pick(s, t) == Pick(s[..|s|-1], t) && Pick(s, t + [|s|-1]) == Pick(s[..|s|-1], t) + [s[|s|-1]]
  {}

  lemma {:induction false} SelectIndicesPick<T>(s: seq<T>, keep: set<T>)
    ensures IsCombination(SelectIndices(s, keep), 0, |s|, |Select(s, keep)|)
    ensures Pick(s, SelectIndices(s, keep)) == Select(s, keep)
  {
    if s != [] {
      var init := s[..|s|-1];
      var t, k := SelectIndices(init, keep), |Select(init, keep)|;
      SelectIndicesPick(init, keep);
      CombinationSnoc(t, |init|, k);
      PickFromPrefix(s, t, k);
    }
  }

  /** Every selection of k members is among the generated combinations. */
  lemma SelectionIsGenerated<T>(s: seq<T>, keep: set<T>)
    requires Select(s, keep) != []
    ensures Select(s, keep) in Combos(s, |Select(s, keep)|)
  {
    var k, t := |Select(s, keep)|, SelectIndices(s, keep);
    SelectMembers(s, keep);
    SelectIndicesPick(s, keep);
    EveryCombinationListed(t, 0, |s|, k);
    TuplesAreCombinations(0, |s|, k);
    var j :| 0 <= j < |Tuples(0, |s|, k)| && Tuples(0, |s|, k)[j] == t;
    assert Combos(s, k)[j] == Select(s, keep);
  }

  ghost function Members<T>(s: seq<T>): set<T> {
    set x | x in s
  }

  /** And every generated combination is the selection of its own members, when no item repeats. */
  lemma GeneratedIsSelection<T>(s: seq<T>, k: int, c: seq<T>)
    requires Distinct(s) && c in Combos(s, k)
    ensures |c| == k && Distinct(c)
    ensures c == Select(s, Members(c))
  {
    TuplesAreCombinations(0, |s|, k);
    var j :| 0 <= j < |Combos(s, k)| && Combos(s, k)[j] == c;
    var t := Tuples(0, |s|, k)[j];
    assert IsCombination(t, 0, |s|, k);
    PickIsSelection(s, t, k);
  }

  /** The last item picked comes after the others. */
  lemma PickSplit<T>(s: seq<T>, t: seq<int>, k: nat)
    requires IsCombination(t, 0, |s|, k) && k > 0
    ensures IsCombination(t[..k-1], 0, t[k-1], k - 1)
    ensures Pick(s, t) == Pick(s[..t[k-1]], t[..k-1]) + [s[t[k-1]]]
  {}

  lemma {:induction false} PickIsSelection<T>(s: seq<T>, t: seq<int>, k: nat)
    requires Distinct(s) && IsCombination(t, 0, |s|, k)
    ensures Distinct(Pick(s, t))
    ensures Pick(s, t) == Select(s, Members(Pick(s, t)))
  {
    if k == 0 {
      SelectNone(s, Members(Pick(s, t)));
    } else {
      var m, u := t[k-1], t[..k-1];
      PickSplit(s, t, k);
      PickIsSelection(s[..m], u, k - 1);
      SelectOneMore(s, m, Pick(s[..m], u));
    }
  }

  lemma SelectOneMore<T>(s: seq<T>, m: nat, d: seq<T>)
    requires m < |s| && Distinct(s)
    requires d == Select(s[..m], Members(d))
    ensures Select(s, Members(d + [s[m]])) == d + [s[m]]
  {
    var keep := Members(d + [s[m]]);
    assert s == s[..m+1] + s[m+1..] && s[..m+1] == s[..m] + [s[m]];
    MembersComeFirst(s, m, d);
    SelectDropsRest(s[..m+1], s[m+1..], keep);
    SelectSnoc(s[..m], s[m], keep);
    SelectAgrees(s[..m], keep, Members(d));
  }

  lemma MembersComeFirst<T>(s: seq<T>, m: nat, d: seq<T>)
    requires m < |s| && Distinct(s)
    requires d == Select(s[..m], Members(d))
    ensures forall x :: x in s[m+1..] ==> x !in Members(d + [s[m]])
    ensures forall x :: x in s[..m] ==> (x in Members(d + [s[m]]) <==> x in Members(d))
  {
    SelectMembers(s[..m], Members(d));
  }

  lemma SelectDropsRest<T>(a: seq<T>, b: seq<T>, keep: set<T>)
    requires forall x :: x in b ==> x !in keep
    ensures Select(a + b, keep) == Select(a, keep)
  {
    SelectConcat(a, b, keep);
    SelectNone(b, keep);
  }

  lemma {:induction false} SelectNone<T>(s: seq<T>, keep: set<T>)
    requires forall x :: x in s ==> x !in keep
    ensures Select(s, keep) == []
  {
    if s != [] { SelectNone(s[..|s|-1], keep); }
  }

  lemma {:induction false} SelectAgrees<T>(s: seq<T>, a: set<T>, b: set<T>)
    requires forall x :: x in s ==> (x in a <==> x in b)
    ensures Select(s, a) == Select(s, b)
  {
    if s != [] { SelectAgrees(s[..|s|-1], a, b); }
  }
}
