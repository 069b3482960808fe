/** Sequence operations that the JavaScript code uses through `Array`
    methods: `slice(0, n)`, `filter` and a stable `sort` by a numeric key. */
module Sequences {

  /** `s.slice(0, n)`: the first `n` elements, or all of them. */
  function Take<T>(s: seq<T>, n: nat): (r: seq<T>)
    ensures |r| == if |s| < n then |s| else n
    ensures r == s[..|r|]
  {
    if |s| <= n then s else s[..n]
  }

  /** `s.filter(p)`: the elements satisfying `p`, in their original order. */
  function Filter<T(!new)>(s: seq<T>, p: T -> bool): (r: seq<T>)
    ensures |r| <= |s|
    ensures multiset(r) <= multiset(s)
    ensures forall x :: x in r <==> x in s && p(x)
  {
    if s == [] then []
    else
      assert s == [s[0]] + s[1..];
      (if p(s[0]) then [s[0]] else []) + Filter(s[1..], p)
  }

  lemma {:induction false} FilterConcat<T(!new)>(a: seq<T>, b: seq<T>, p: T -> bool)
    ensures Filter(a + b, p) == Filter(a, p) + Filter(b, p)
  {
    if a == [] {
      assert a + b == b;
    } else {
      assert (a + b)[0] == a[0];
      assert (a + b)[1..] == a[1..] + b;
      FilterConcat(a[1..], b, p);
    }
  }

  /** Filtering by a weaker predicate first changes nothing. */
  lemma {:induction false} FilterFilter<T(!new)>(s: seq<T>, p: T -> bool, q: T -> bool)
    requires forall x :: q(x) ==> p(x)
    ensures Filter(Filter(s, p), q) == Filter(s, q)
  {
    if s != [] {
      FilterFilter(s[1..], p, q);
      var head := if p(s[0]) then [s[0]] else [];
      FilterConcat(head, Filter(s[1..], p), q);
    }
  }

  /** Two filters may be applied in either order. */
  lemma {:induction false} FilterCommute<T(!new)>(s: seq<T>, p: T -> bool, q: T -> bool)
    ensures Filter(Filter(s, p), q) == Filter(Filter(s, q), p)
  {
    if s != [] {
      FilterCommute(s[1..], p, q);
      var hp := if p(s[0]) then [s[0]] else [];
      var hq := if q(s[0]) then [s[0]] else [];
      FilterConcat(hp, Filter(s[1..], p), q);
      FilterConcat(hq, Filter(s[1..], q), p);
    }
  }

  /** A filter whose predicate holds of every element is the identity. */
  lemma {:induction false} FilterAll<T(!new)>(s: seq<T>, p: T -> bool)
    requires forall x :: x in s ==> p(x)
    ensures Filter(s, p) == s
  {
    if s != [] {
      FilterAll(s[1..], p);
    }
  }

  /** A filter whose predicate holds of no element gives the empty sequence. */
  lemma {:induction false} FilterNone<T(!new)>(s: seq<T>, p: T -> bool)
    requires forall x :: x in s ==> !p(x)
    ensures Filter(s, p) == []
  {
    if s != [] {
      FilterNone(s[1..], p);
    }
  }

  /** Ascending by `key`: what a comparator `(a, b) => key(a) - key(b)` sorts to. */
  ghost predicate SortedBy<T>(s: seq<T>, key: T -> real)
  {
    forall i, j :: 0 <= i < j < |s| ==> key(s[i]) <= key(s[j])
  }

  /** Inserts `x` before the first element whose key is not smaller, so that
      `x` precedes the elements of equal key that follow it in the input. */
  function Insert<T>(x: T, s: seq<T>, key: T -> real): (r: seq<T>)
    requires SortedBy(s, key)
    ensures SortedBy(r, key)
    ensures multiset(r) == multiset(s) + multiset{x}
    ensures |r| == |s| + 1
  {
    if s == [] || key(x) <= key(s[0]) then
      assert forall j :: 0 <= j < |s| ==> key(x) <= key(s[j]) by {
        if s != [] {
          forall j | 0 <= j < |s| ensures key(x) <= key(s[j]) {
            assert j == 0 || key(s[0]) <= key(s[j]);
          }
        }
      }
      [x] + s
    else
      assert s == [s[0]] + s[1..];
      var rest := Insert(x, s[1..], key);
      InsertLowerBound(x, s, key, rest);
      [s[0]] + rest
  }

  /** Every element of the insertion into the tail of `s` has a key no
      smaller than that of the head of `s`. */
  lemma InsertLowerBound<T>(x: T, s: seq<T>, key: T -> real, rest: seq<T>)
    requires SortedBy(s, key) && s != [] && key(s[0]) < key(x)
    requires multiset(rest) == multiset(s[1..]) + multiset{x}
    requires SortedBy(rest, key)
    ensures SortedBy([s[0]] + rest, key)
  {
    forall j | 0 <= j < |rest| ensures key(s[0]) <= key(rest[j]) {
      assert rest[j] in multiset(rest);
      if rest[j] != x {
        assert rest[j] in s[1..];
        var k :| 0 <= k < |s[1..]| && s[1..][k] == rest[j];
        assert s[k + 1] == rest[j];
      }
    }
    var t := [s[0]] + rest;
    forall i, j | 0 <= i < j < |t| ensures key(t[i]) <= key(t[j]) {
      if i > 0 {
        assert t[i] == rest[i - 1] && t[j] == rest[j - 1];
      } else {
        assert t[j] == rest[j - 1];
      }
    }
  }

  /** `[...s].sort((a, b) => key(a) - key(b))`: a stable insertion sort. */
  function SortBy<T>(s: seq<T>, key: T -> real): (r: seq<T>)
    ensures SortedBy(r, key)
    ensures multiset(r) == multiset(s)
    ensures |r| == |s|
  {
    if s == [] then []
    else
      assert s == [s[0]] + s[1..];
      Insert(s[0], SortBy(s[1..], key), key)
  }

  /** `a` is `b` with some elements left out, the rest in their order. */
  ghost predicate Subsequence<T>(a: seq<T>, b: seq<T>)
    decreases |b|
  {
    if a == [] then true
    else if b == [] then false
    else (a[0] == b[0] && Subsequence(a[1..], b[1..])) || Subsequence(a, b[1..])
  }

  lemma {:induction false} SubsequenceReflexive<T>(a: seq<T>)
    ensures Subsequence(a, a)
    decreases |a|
  {
    if a != [] {
      SubsequenceReflexive(a[1..]);
    }
  }

  /** Filtering a sorted sequence keeps it sorted. */
  lemma {:induction false} FilterSorted<T(!new)>(s: seq<T>, p: T -> bool, key: T -> real)
    requires SortedBy(s, key)
    ensures SortedBy(Filter(s, p), key)
  {
    if s != [] {
      SortedTail(s, key);
      FilterSorted(s[1..], p, key);
      var rest := Filter(s[1..], p);
      if p(s[0]) {
        forall y | y in rest ensures key(s[0]) <= key(y) {
          SortedHeadBound(s, key, y);
        }
        SortedCons(s[0], rest, key);
      }
    }
  }

  /** A head no larger than any element of a sorted tail keeps it sorted. */
  lemma SortedCons<T>(x: T, rest: seq<T>, key: T -> real)
    requires SortedBy(rest, key) && forall y :: y in rest ==> key(x) <= key(y)
    ensures SortedBy([x] + rest, key)
  {
    var r := [x] + rest;
    forall i, j | 0 <= i < j < |r| ensures key(r[i]) <= key(r[j]) {
      if i == 0 {
        assert r[j] == rest[j - 1];
      } else {
        assert r[i] == rest[i - 1] && r[j] == rest[j - 1];
      }
    }
  }

  /** Every element of a sorted sequence has a key no smaller than its head's. */
  lemma SortedHeadBound<T>(s: seq<T>, key: T -> real, y: T)
    requires SortedBy(s, key) && y in s
    ensures key(s[0]) <= key(y)
  {
    var m :| 0 <= m < |s| && s[m] == y;
    assert m == 0 || key(s[0]) <= key(s[m]);
  }

  /** The filter of a one-element sequence. */
  lemma FilterSingleton<T(!new)>(x: T, p: T -> bool)
    ensures Filter([x], p) == if p(x) then [x] else []
  {
    assert [x][1..] == [];
  }

  /** The tail of a sorted sequence is sorted. */
  lemma SortedTail<T>(s: seq<T>, key: T -> real)
    requires SortedBy(s, key) && s != []
    ensures SortedBy(s[1..], key)
  {
    forall i, j | 0 <= i < j < |s[1..]| ensures key(s[1..][i]) <= key(s[1..][j]) {
      assert s[1..][i] == s[i + 1] && s[1..][j] == s[j + 1];
    }
  }

  /** Filtering after an insertion is inserting into the filtered sequence,
      when the inserted element passes the filter. */
  lemma {:induction false} FilterInsert<T(!new)>(x: T, s: seq<T>, p: T -> bool, key: T -> real)
    requires SortedBy(s, key)
    ensures SortedBy(Filter(s, p), key)
    ensures Filter(Insert(x, s, key), p) == if p(x) then Insert(x, Filter(s, p), key) else Filter(s, p)
    decreases |s|
  {
    FilterSorted(s, p, key);
    if s == [] || key(x) <= key(s[0]) {
      FilterInsertFront(x, s, p, key);
    } else {
      SortedTail(s, key);
      FilterSorted(s[1..], p, key);
      FilterInsert(x, s[1..], p, key);
      FilterInsertBehind(x, s, p, key);
    }
  }

  /** Inserting an element no greater than the head puts it in front. */
  lemma InsertFront<T>(x: T, s: seq<T>, key: T -> real)
    requires SortedBy(s, key) && (s == [] || key(x) <= key(s[0]))
    ensures Insert(x, s, key) == [x] + s
  {
  }

  /** Inserting an element greater than the head keeps the head in front. */
  lemma InsertBehind<T>(x: T, s: seq<T>, key: T -> real)
    requires SortedBy(s, key) && s != [] && key(s[0]) < key(x)
    ensures SortedBy(s[1..], key)
    ensures Insert(x, s, key) == [s[0]] + Insert(x, s[1..], key)
  {
    SortedTail(s, key);
  }

  lemma FilterHead<T(!new)>(s: seq<T>, p: T -> bool)
    requires s != []
    ensures Filter(s, p) == (if p(s[0]) then [s[0]] else []) + Filter(s[1..], p)
  {
  }

  lemma FilterCons<T(!new)>(x: T, s: seq<T>, p: T -> bool)
    ensures Filter([x] + s, p) == (if p(x) then [x] else []) + Filter(s, p)
  {
    FilterConcat([x], s, p);
    FilterSingleton(x, p);
  }

  lemma FilterInsertFront<T(!new)>(x: T, s: seq<T>, p: T -> bool, key: T -> real)
    requires SortedBy(s, key) && SortedBy(Filter(s, p), key)
    requires s == [] || key(x) <= key(s[0])
    ensures Filter(Insert(x, s, key), p) == if p(x) then Insert(x, Filter(s, p), key) else Filter(s, p)
  {
    InsertFront(x, s, key);
    FilterCons(x, s, p);
    var fs := Filter(s, p);
    if p(x) {
      if fs != [] {
        assert fs[0] in s;
        SortedHeadBound(s, key, fs[0]);
      }
      InsertFront(x, fs, key);
    }
  }

  lemma FilterInsertBehind<T(!new)>(x: T, s: seq<T>, p: T -> bool, key: T -> real)
    requires SortedBy(s, key) && s != [] && key(s[0]) < key(x)
    requires SortedBy(s[1..], key) && SortedBy(Filter(s, p), key) && SortedBy(Filter(s[1..], p), key)
    requires Filter(Insert(x, s[1..], key), p) == if p(x) then Insert(x, Filter(s[1..], p), key) else Filter(s[1..], p)
    ensures Filter(Insert(x, s, key), p) == if p(x) then Insert(x, Filter(s, p), key) else Filter(s, p)
  {
    InsertBehind(x, s, key);
    var rest := Insert(x, s[1..], key);
    var f1 := Filter(s[1..], p);
    var fs := Filter(s, p);
    var h0 := if p(s[0]) then [s[0]] else [];
    FilterCons(s[0], rest, p);
    assert Filter(Insert(x, s, key), p) == h0 + Filter(rest, p);
    FilterHead(s, p);
    assert fs == h0 + f1;
    if p(x) {
      if p(s[0]) {
        assert fs[0] == s[0] && fs[1..] == f1;
        InsertBehind(x, fs, key);
      } else {
        assert fs == f1;
      }
    }
  }

  lemma SortByHead<T>(s: seq<T>, key: T -> real)
    requires s != []
    ensures SortBy(s, key) == Insert(s[0], SortBy(s[1..], key), key)
  {
  }

  /** A stable sort commutes with a filter: sorting then filtering is
      filtering then sorting. */
  lemma {:induction false} SortFilterCommute<T(!new)>(s: seq<T>, p: T -> bool, key: T -> real)
    ensures Filter(SortBy(s, key), p) == SortBy(Filter(s, p), key)
    decreases |s|
  {
    if s != [] {
      var s1 := SortBy(s[1..], key);
      var fs := Filter(s, p);
      SortFilterCommute(s[1..], p, key);
      SortByHead(s, key);
      FilterInsert(s[0], s1, p, key);
      FilterHead(s, p);
      if p(s[0]) {
        assert fs[0] == s[0] && fs[1..] == Filter(s[1..], p);
        SortByHead(fs, key);
        calc {
          Filter(SortBy(s, key), p);
          Filter(Insert(s[0], s1, key), p);
          Insert(s[0], Filter(s1, p), key);
          Insert(s[0], SortBy(Filter(s[1..], p), key), key);
          SortBy(fs, key);
        }
      } else {
        calc {
          Filter(SortBy(s, key), p);
          Filter(Insert(s[0], s1, key), p);
          Filter(s1, p);
          SortBy(Filter(s[1..], p), key);
          { assert fs == Filter(s[1..], p); }
          SortBy(fs, key);
        }
      }
    }
  }

  /** Sorting what is already sorted changes nothing. */
  lemma {:induction false} SortSortedIdentity<T>(s: seq<T>, key: T -> real)
    requires SortedBy(s, key)
    ensures SortBy(s, key) == s
    decreases |s|
  {
    if s != [] {
      assert SortedBy(s[1..], key) by {
        forall i, j | 0 <= i < j < |s[1..]| ensures key(s[1..][i]) <= key(s[1..][j]) {
          assert s[1..][i] == s[i + 1] && s[1..][j] == s[j + 1];
        }
      }
      SortSortedIdentity(s[1..], key);
      assert |s| == 1 || key(s[0]) <= key(s[1..][0]);
      assert s == [s[0]] + s[1..];
    }
  }

  /** A prefix of a sorted sequence is sorted. */
  lemma TakeSorted<T>(s: seq<T>, key: T -> real, n: nat)
    requires SortedBy(s, key)
    ensures SortedBy(Take(s, n), key)
  {
  }

  lemma TakeSubMultiset<T>(s: seq<T>, n: nat)
    ensures multiset(Take(s, n)) <= multiset(s)
  {
    var t := Take(s, n);
    assert s == t + s[|t|..];
    assert multiset(s) == multiset(t) + multiset(s[|t|..]);
  }

  /** `sort(...).slice(0, n)` selects the smallest: every element of `s` that
      the prefix leaves out has a key at least that of every element kept. */
  lemma TakeSortedSmallest<T>(s: seq<T>, key: T -> real, n: nat)
    ensures var t := Take(SortBy(s, key), n);
      forall x, y :: x in t && y in multiset(s) - multiset(t) ==> key(x) <= key(y)
  {
    var u := SortBy(s, key);
    var t := Take(u, n);
    TakeRest(u, n);
    forall x, y | x in t && y in multiset(s) - multiset(t) ensures key(x) <= key(y) {
      SortedSplit(u, |t|, x, y, key);
    }
  }

  /** What `Take` leaves out is the rest of the sequence, as a multiset too. */
  lemma TakeRest<T>(u: seq<T>, n: nat)
    ensures var t := Take(u, n);
      t == u[..|t|] && multiset(u) - multiset(t) == multiset(u[|t|..]) &&
      forall y :: y in multiset(u) - multiset(t) ==> y in u[|t|..]
  {
    var t := Take(u, n);
    var rest := u[|t|..];
    assert u == t + rest;
    assert multiset(u) == multiset(t) + multiset(rest);
  }

  /** In a sorted sequence, an element before position `k` has a key no
      larger than one from position `k` on. */
  lemma SortedSplit<T>(u: seq<T>, k: nat, x: T, y: T, key: T -> real)
    requires SortedBy(u, key) && k <= |u| && x in u[..k] && y in u[k..]
    ensures key(x) <= key(y)
  {
    var i :| 0 <= i < k && u[..k][i] == x;
    var j :| 0 <= j < |u| - k && u[k..][j] == y;
    assert u[i] == x && u[k + j] == y;
  }

  /** `s.sort(key).slice(0, n)`: the `min(n, |s|)` elements of smallest key,
      in key order, all drawn from `s`. */
  lemma SmallestN<T>(s: seq<T>, key: T -> real, n: nat)
    ensures var t := Take(SortBy(s, key), n);
      |t| == (if |s| < n then |s| else n) && multiset(t) <= multiset(s) && SortedBy(t, key) &&
      forall x, y :: x in t && y in multiset(s) - multiset(t) ==> key(x) <= key(y)
  {
    var u := SortBy(s, key);
    assert |u| == |s|;
    TakeSubMultiset(u, n);
    TakeSorted(u, key, n);
    TakeSortedSmallest(s, key, n);
  }

  /** `s.filter(p).sort(key).slice(0, n)`: at most `n` elements, all from `s`
      and all satisfying `p`, in key order, and none of the filtered elements
      left out has a smaller key than one kept. */
  lemma TopN<T(!new)>(s: seq<T>, p: T -> bool, key: T -> real, n: nat)
    ensures var (f, t) := (Filter(s, p), Take(SortBy(Filter(s, p), key), n));
      |t| <= n && multiset(t) <= multiset(s) && (forall x :: x in t ==> p(x)) && SortedBy(t, key) &&
      forall x, y :: x in t && y in multiset(f) - multiset(t) ==> key(x) <= key(y)
  {
    var f := Filter(s, p);
    var u := SortBy(f, key);
    var t := Take(u, n);
    TakeSubMultiset(u, n);
    TakeSorted(u, key, n);
    TakeSortedSmallest(f, key, n);
    forall x | x in t ensures p(x) {
      assert x in multiset(t);
      assert x in multiset(f);
    }
  }

  /** `s.sort(key).filter(p).slice(0, n)` has the properties of `TopN`, since
      sorting and filtering commute. */
  lemma SortFirstTopN<T(!new)>(s: seq<T>, p: T -> bool, key: T -> real, n: nat)
    ensures var (f, t) := (Filter(s, p), Take(Filter(SortBy(s, key), p), n));
      |t| <= n && multiset(t) <= multiset(s) && (forall x :: x in t ==> p(x)) && SortedBy(t, key) &&
      forall x, y :: x in t && y in multiset(f) - multiset(t) ==> key(x) <= key(y)
  {
    SortFilterCommute(s, p, key);
    TopN(s, p, key, n);
  }

  /** `filter` keeps the surviving elements in their original order. */
  lemma {:induction false} FilterSubsequence<T(!new)>(s: seq<T>, p: T -> bool)
    ensures Subsequence(Filter(s, p), s)
    decreases |s|
  {
    if s != [] {
      FilterHead(s, p);
      FilterSubsequence(s[1..], p);
      var f := Filter(s, p);
      if p(s[0]) {
        assert f[0] == s[0] && f[1..] == Filter(s[1..], p);
      } else if f != [] {
        assert f == Filter(s[1..], p);
        assert Subsequence(f, s[1..]);
      }
    }
  }
}
