/** The array operations the application uses in expression form: `filter`,
    `map`, `reduce` to a sum, `slice(0, n)` and the stable `sort` with a
    numeric comparator. */
module Seqs {

  /** `s.filter(p)` */
  function Filter<T>(s: seq<T>, p: T -> bool): (r: seq<T>)
    ensures |r| <= |s|
    ensures forall i :: 0 <= i < |r| ==> p(r[i]) && r[i] in s
    ensures forall i :: 0 <= i < |s| && p(s[i]) ==> s[i] in r
  {
    if |s| == 0 then []
    else if p(s[0]) then [s[0]] + Filter(s[1..], p)
    else Filter(s[1..], p)
  }

  /** a can be obtained from b by deleting elements: the order of what is kept
      is the order in b. */
  ghost predicate IsSubsequence<T>(a: seq<T>, b: seq<T>)
    decreases |b|
  {
    if |b| == 0 then |a| == 0
    else (|a| > 0 && a[0] == b[0] && IsSubsequence(a[1..], b[1..])) || IsSubsequence(a, b[1..])
  }

  /** A filter keeps the surviving elements in their original order. */
  lemma {:induction false} FilterIsSubsequence<T>(s: seq<T>, p: T -> bool)
    ensures IsSubsequence(Filter(s, p), s)
    decreases |s|
  {
    if |s| > 0 {
      FilterIsSubsequence(s[1..], p);
    }
  }

  /** Filtering a concatenation filters each part. */
  lemma {:induction false} FilterAppend<T>(a: seq<T>, b: seq<T>, p: T -> bool)
    ensures Filter(a + b, p) == Filter(a, p) + Filter(b, p)
    decreases |a|
  {
    if |a| > 0 {
      var head := if p(a[0]) then [a[0]] else [];
      assert Filter(a + b, p) == head + Filter(a[1..] + b, p) by {
        assert (a + b)[0] == a[0];
        assert (a + b)[1..] == a[1..] + b;
      }
      FilterAppend(a[1..], b, p);
      AppendAssoc(head, Filter(a[1..], p), Filter(b, p));
    } else {
      assert a + b == b;
    }
  }

  lemma AppendAssoc<T>(x: seq<T>, y: seq<T>, z: seq<T>)
    ensures x + (y + z) == (x + y) + z
  {
  }

  /** Two filters applied one after the other commute. */
  lemma {:induction false} FilterCommutes<T>(s: seq<T>, p: T -> bool, q: T -> bool)
    ensures Filter(Filter(s, p), q) == Filter(Filter(s, q), p)
    decreases |s|
  {
    if |s| > 0 {
      FilterCommutes(s[1..], p, q);
    }
  }

  /** `s.reduce((sum, x) => sum + f(x), 0)` */
  function Sum<T>(s: seq<T>, f: T -> int): int {
    if |s| == 0 then 0 else f(s[0]) + Sum(s[1..], f)
  }

  lemma {:induction false} SumAppend<T>(a: seq<T>, b: seq<T>, f: T -> int)
    ensures Sum(a + b, f) == Sum(a, f) + Sum(b, f)
    decreases |a|
  {
    if |a| > 0 {
      SumAppend(a[1..], b, f);
      assert (a + b)[0] == a[0];
      assert (a + b)[1..] == a[1..] + b;
    } else {
      assert a + b == b;
    }
  }

  /** A filter of non-negative terms sums to no more than the whole. */
  lemma {:induction false} SumFilterBound<T>(s: seq<T>, p: T -> bool, f: T -> int)
    requires forall i :: 0 <= i < |s| ==> f(s[i]) >= 0
    ensures 0 <= Sum(Filter(s, p), f) <= Sum(s, f)
    decreases |s|
  {
    if |s| > 0 {
      SumFilterBound(s[1..], p, f);
    }
  }

  /** Taking one element out of a sequence, as a concatenation. */
  lemma RemoveAt<T>(ys: seq<T>, j: nat)
    requires j < |ys|
    ensures ys == ys[..j] + [ys[j]] + ys[j + 1..]
    ensures multiset(ys[..j] + ys[j + 1..]) == multiset(ys) - multiset{ys[j]}
  {
    assert ys == ys[..j] + [ys[j]] + ys[j + 1..];
    calc {
      multiset(ys);
      multiset(ys[..j]) + multiset{ys[j]} + multiset(ys[j + 1..]);
      multiset(ys[..j] + ys[j + 1..]) + multiset{ys[j]};
    }
  }

  /** Filtering two orderings of the same elements keeps the same elements. */
  lemma {:induction false} FilterPermutation<T>(xs: seq<T>, ys: seq<T>, p: T -> bool)
    requires multiset(xs) == multiset(ys)
    ensures multiset(Filter(xs, p)) == multiset(Filter(ys, p))
    decreases |xs|
  {
    if |xs| == 0 {
      assert |ys| == |multiset(ys)| == 0;
    } else {
      var x := xs[0];
      assert x in multiset(ys);
      var j :| 0 <= j < |ys| && ys[j] == x;
      RemoveAt(ys, j);
      var rest := ys[..j] + ys[j + 1..];
      assert xs == [x] + xs[1..];
      assert multiset(xs[1..]) == multiset(rest);
      FilterPermutation(xs[1..], rest, p);
      FilterAppend(ys[..j], ys[j + 1..], p);
      FilterAppend(ys[..j] + [x], ys[j + 1..], p);
      FilterAppend(ys[..j], [x], p);
    }
  }

  /** Summing two orderings of the same elements gives the same sum. */
  lemma {:induction false} SumPermutation<T>(xs: seq<T>, ys: seq<T>, f: T -> int)
    requires multiset(xs) == multiset(ys)
    ensures Sum(xs, f) == Sum(ys, f)
    decreases |xs|
  {
    if |xs| == 0 {
      assert |ys| == |multiset(ys)| == 0;
    } else {
      var x := xs[0];
      assert x in multiset(ys);
      var j :| 0 <= j < |ys| && ys[j] == x;
      RemoveAt(ys, j);
      var rest := ys[..j] + ys[j + 1..];
      assert xs == [x] + xs[1..];
      assert multiset(xs[1..]) == multiset(rest);
      SumPermutation(xs[1..], rest, f);
      SumAppend(ys[..j], ys[j + 1..], f);
      SumAppend(ys[..j] + [x], ys[j + 1..], f);
      SumAppend(ys[..j], [x], f);
      assert Sum([x], f) == f(x) by {
        assert [x][1..] == [];
      }
    }
  }

  /** Keeping what passes a stricter test keeps no more. */
  lemma {:induction false} FilterStricter<T>(xs: seq<T>, p: T -> bool, q: T -> bool)
    requires forall x :: p(x) ==> q(x)
    ensures |Filter(xs, p)| <= |Filter(xs, q)|
    decreases |xs|
  {
    if |xs| > 0 {
      FilterStricter(xs[1..], p, q);
    }
  }

  /** `s.map(f)` */
  function Map<T, U>(s: seq<T>, f: T -> U): (r: seq<U>)
    ensures |r| == |s|
    ensures forall i :: 0 <= i < |s| ==> r[i] == f(s[i])
  {
    seq(|s|, i requires 0 <= i < |s| => f(s[i]))
  }

  /** Mapping a concatenation maps each part. */
  lemma MapAppend<T, U>(a: seq<T>, b: seq<T>, f: T -> U)
    ensures Map(a + b, f) == Map(a, f) + Map(b, f)
  {
    assert forall i :: 0 <= i < |a + b| ==> Map(a + b, f)[i] == (Map(a, f) + Map(b, f))[i];
  }

  /** Filtering a sequence extended by one element. */
  lemma FilterLast<T>(s: seq<T>, p: T -> bool)
    requires |s| > 0
    ensures Filter(s, p) == Filter(s[..|s| - 1], p) + (if p(s[|s| - 1]) then [s[|s| - 1]] else [])
  {
    var init, last := s[..|s| - 1], s[|s| - 1];
    assert s == init + [last];
    FilterAppend(init, [last], p);
    assert [last][1..] == [];
  }

  /** Filtering then mapping a sequence extended by one element. */
  lemma FilterMapLast<T, U>(s: seq<T>, p: T -> bool, f: T -> U)
    requires |s| > 0
    ensures Map(Filter(s, p), f) == Map(Filter(s[..|s| - 1], p), f) + (if p(s[|s| - 1]) then [f(s[|s| - 1])] else [])
  {
    var last := s[|s| - 1];
    var tail := if p(last) then [last] else [];
    FilterLast(s, p);
    MapAppend(Filter(s[..|s| - 1], p), tail, f);
    assert Map(tail, f) == if p(last) then [f(last)] else [];
  }

  /** s sorted by key: non-increasing when `desc`, non-decreasing otherwise. */
  predicate SortedBy<T>(s: seq<T>, key: T -> int, desc: bool) {
    forall i, j :: 0 <= i < j < |s| ==> if desc then key(s[i]) >= key(s[j]) else key(s[i]) <= key(s[j])
  }

  /** x may stand before an element with key k in the sort order. */
  predicate Precedes<T>(x: T, k: int, key: T -> int, desc: bool) {
    if desc then key(x) >= k else key(x) <= k
  }

  /** An element that may precede every element of a sorted sequence can head it. */
  lemma ConsSorted<T>(h: T, t: seq<T>, key: T -> int, desc: bool)
    requires SortedBy(t, key, desc)
    requires forall j :: 0 <= j < |t| ==> Precedes(h, key(t[j]), key, desc)
    ensures SortedBy([h] + t, key, desc)
  {
    var r := [h] + t;
    forall i, j | 0 <= i < j < |r|
      ensures if desc then key(r[i]) >= key(r[j]) else key(r[i]) <= key(r[j])
    {
      assert r[j] == t[j - 1];
      if i > 0 {
        assert r[i] == t[i - 1];
      }
    }
  }

  /** Insert x into a sorted sequence, ahead of every element it may precede. */
  function InsertBy<T>(x: T, s: seq<T>, key: T -> int, desc: bool): (r: seq<T>)
    requires SortedBy(s, key, desc)
    ensures SortedBy(r, key, desc)
    ensures multiset(r) == multiset(s) + multiset{x}
    decreases |s|
  {
    if |s| == 0 || Precedes(x, key(s[0]), key, desc) then
      assert forall j :: 0 <= j < |s| ==> Precedes(x, key(s[j]), key, desc);
      ConsSorted(x, s, key, desc);
      [x] + s
    else
      var t := InsertBy(x, s[1..], key, desc);
      assert s == [s[0]] + s[1..];
      forall j | 0 <= j < |t| ensures Precedes(s[0], key(t[j]), key, desc) {
        assert t[j] in multiset(t);
        if t[j] != x {
          assert t[j] in multiset(s[1..]);
          var m :| 0 <= m < |s[1..]| && s[1..][m] == t[j];
          assert s[m + 1] == t[j];
        }
      }
      ConsSorted(s[0], t, key, desc);
      [s[0]] + t
  }

  /** `s.sort((a, b) => key(a) - key(b))` (ascending) or
      `s.sort((a, b) => key(b) - key(a))` (descending): a stable sort. */
  function SortBy<T>(s: seq<T>, key: T -> int, desc: bool): (r: seq<T>)
    ensures SortedBy(r, key, desc)
    ensures multiset(r) == multiset(s)
    ensures |r| == |s|
    decreases |s|
  {
    if |s| == 0 then []
    else
      assert s == [s[0]] + s[1..];
      InsertBy(s[0], SortBy(s[1..], key, desc), key, desc)
  }

  lemma {:induction false} InsertKeeps<T>(x: T, s: seq<T>, key: T -> int, desc: bool, k: int)
    requires SortedBy(s, key, desc)
    ensures Filter(InsertBy(x, s, key, desc), y => key(y) == k) ==
              if key(x) == k then [x] + Filter(s, y => key(y) == k) else Filter(s, y => key(y) == k)
    decreases |s|
  {
    if |s| > 0 && !Precedes(x, key(s[0]), key, desc) {
      InsertKeeps(x, s[1..], key, desc, k);
      assert key(s[0]) != key(x);
    }
  }

  /** The sort is stable: the elements sharing any one key come out in the
      order they went in. */
  lemma {:induction false} SortIsStable<T>(s: seq<T>, key: T -> int, desc: bool, k: int)
    ensures Filter(SortBy(s, key, desc), y => key(y) == k) == Filter(s, y => key(y) == k)
    decreases |s|
  {
    if |s| > 0 {
      SortIsStable(s[1..], key, desc, k);
      InsertKeeps(s[0], SortBy(s[1..], key, desc), key, desc, k);
    }
  }

  /** `s.slice(0, n)` */
  function Take<T>(s: seq<T>, n: nat): (r: seq<T>)
    ensures |r| <= n && |r| <= |s|
    ensures r <= s
    ensures |s| <= n ==> r == s
  {
    if |s| <= n then s else s[..n]
  }
}
