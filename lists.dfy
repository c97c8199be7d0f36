/** The list operations the admin pages build their tables from: `filter`, `slice(0, n)`, and
    the newest-first `sort` on a copy of a fetched list. */
module Lists {

  // ---------------------------------------------------------------------------
  // filter

  /** `s.filter(p)`. */
  function Filter<T(==,!new)>(s: seq<T>, p: T -> bool): (r: seq<T>)
    ensures |r| <= |s|
    ensures forall i :: 0 <= i < |r| ==> r[i] in s && p(r[i])
    ensures forall i :: 0 <= i < |s| && p(s[i]) ==> s[i] in r
    ensures forall x :: multiset(r)[x] == if p(x) then multiset(s)[x] else 0
  {
    if s == [] then []
    else
      assert s == [s[0]] + s[1..];
      if p(s[0]) then [s[0]] + Filter(s[1..], p)
      else Filter(s[1..], p)
  }

  /** `a` is `b` with some elements left out and the rest in their original order. */
  predicate IsSubsequence<T(==)>(a: seq<T>, b: seq<T>) {
    if a == [] then true
    else if b == [] then false
    else (a[0] == b[0] && IsSubsequence(a[1..], b[1..])) || IsSubsequence(a, b[1..])
  }

  /** Filtering keeps the order of what it keeps. */
  lemma {:induction false} FilterIsSubsequence<T(!new)>(s: seq<T>, p: T -> bool)
    ensures IsSubsequence(Filter(s, p), s)
  {
    if s != [] {
      FilterIsSubsequence(s[1..], p);
      var f := Filter(s[1..], p);
      if p(s[0]) {
        assert Filter(s, p) == [s[0]] + f;
        assert ([s[0]] + f)[1..] == f;
      } else if f != [] {
        assert IsSubsequence(Filter(s, p), s[1..]);
      }
    }
  }

  /** A predicate that holds of every element keeps the whole list. */
  lemma {:induction false} FilterKeepsAll<T(!new)>(s: seq<T>, p: T -> bool)
    requires forall i :: 0 <= i < |s| ==> p(s[i])
    ensures Filter(s, p) == s
  {
    if s != [] {
      FilterKeepsAll(s[1..], p);
    }
  }

  /** Every element passes either `p` or its negation, never both. */
  lemma {:induction false} FilterSplitsLength<T(!new)>(s: seq<T>, p: T -> bool, q: T -> bool)
    requires forall i :: 0 <= i < |s| ==> (p(s[i]) <==> !q(s[i]))
    ensures |Filter(s, p)| + |Filter(s, q)| == |s|
  {
    if s != [] {
      FilterSplitsLength(s[1..], p, q);
    }
  }

  // ---------------------------------------------------------------------------
  // slice(0, n)

  /** `s.slice(0, n)`. */
  function Take<T>(s: seq<T>, n: nat): (r: seq<T>)
    ensures |r| == if |s| <= n then |s| else n
    ensures r <= s
  {
    if |s| <= n then s else s[..n]
  }

  // ---------------------------------------------------------------------------
  // Newest-first sort

  /** Ordered by `key` from the largest (newest timestamp) to the smallest. */
  predicate NewestFirst<T>(s: seq<T>, key: T -> int) {
    forall i, j :: 0 <= i < j < |s| ==> key(s[i]) >= key(s[j])
  }

  /** Places `x` in front of the first element that is not newer than it. */
  function Insert<T>(x: T, s: seq<T>, key: T -> int): (r: seq<T>)
    ensures |r| == |s| + 1
    ensures r[0] == x || (s != [] && r[0] == s[0])
    ensures multiset(r) == multiset{x} + multiset(s)
  {
    if s == [] || key(x) >= key(s[0]) then [x] + s
    else
      assert s == [s[0]] + s[1..];
      [s[0]] + Insert(x, s[1..], key)
  }

  lemma {:induction false} InsertKeepsOrder<T>(x: T, s: seq<T>, key: T -> int)
    requires NewestFirst(s, key)
    ensures NewestFirst(Insert(x, s, key), key)
  {
    if s != [] && key(x) < key(s[0]) {
      InsertKeepsOrder(x, s[1..], key);
      var t := Insert(x, s[1..], key);
      assert key(t[0]) <= key(s[0]);
      var r := [s[0]] + t;
      forall i, j | 0 <= i < j < |r| ensures key(r[i]) >= key(r[j]) {
        if i == 0 && j > 1 {
          assert key(t[0]) >= key(t[j - 1]);
        }
      }
    }
  }

  /** `[...s].sort((a, b) => key(b) - key(a))`: JavaScript's sort is stable, so elements with the
      same key keep their original order, which insertion from the back reproduces. */
  function SortNewestFirst<T>(s: seq<T>, key: T -> int): (r: seq<T>)
    ensures NewestFirst(r, key)
    ensures multiset(r) == multiset(s)
    ensures |r| == |s|
  {
    if s == [] then []
    else
      var t := SortNewestFirst(s[1..], key);
      InsertKeepsOrder(s[0], t, key);
      assert s == [s[0]] + s[1..];
      Insert(s[0], t, key)
  }

  /** Inserting an element counts it once among the elements a filter keeps. */
  lemma {:induction false} FilterLengthOfInsert<T(!new)>(x: T, s: seq<T>, key: T -> int, p: T -> bool)
    ensures |Filter(Insert(x, s, key), p)| == (if p(x) then 1 else 0) + |Filter(s, p)|
  {
    if s != [] && key(x) < key(s[0]) {
      FilterLengthOfInsert(x, s[1..], key, p);
      var r := Insert(x, s, key);
      assert r[1..] == Insert(x, s[1..], key);
    } else {
      var r := [x] + s;
      assert r[1..] == s;
    }
  }

  /** Sorting changes no count a filter takes. */
  lemma {:induction false} FilterLengthOfSort<T(!new)>(s: seq<T>, key: T -> int, p: T -> bool)
    ensures |Filter(SortNewestFirst(s, key), p)| == |Filter(s, p)|
  {
    if s != [] {
      FilterLengthOfSort(s[1..], key, p);
      FilterLengthOfInsert(s[0], SortNewestFirst(s[1..], key), key, p);
    }
  }

  /** A list that is already newest-first comes back unchanged. */
  lemma {:induction false} SortOfSortedIsIdentity<T>(s: seq<T>, key: T -> int)
    requires NewestFirst(s, key)
    ensures SortNewestFirst(s, key) == s
  {
    if s != [] {
      SortOfSortedIsIdentity(s[1..], key);
    }
  }

  /** In a newest-first list, nothing after position `k` is newer than anything before it. */
  lemma LaterAreNoNewer<T>(r: seq<T>, k: nat, key: T -> int)
    requires NewestFirst(r, key) && k <= |r|
    ensures forall x, y :: x in r[k..] && y in r[..k] ==> key(x) <= key(y)
  {
    forall x, y | x in r[k..] && y in r[..k]
      ensures key(x) <= key(y)
    {
      var j :| 0 <= j < |r| - k && r[k..][j] == x;
      var i :| 0 <= i < k && r[..k][i] == y;
      assert r[k + j] == x && r[i] == y;
    }
  }

  /** The first `n` of a newest-first permutation of `s` are the `n` newest of `s`: everything
      of `s` left out is no newer than anything kept. */
  lemma TakeNewestIsNewest<T>(s: seq<T>, r: seq<T>, n: nat, key: T -> int)
    requires NewestFirst(r, key) && multiset(r) == multiset(s)
    ensures NewestFirst(Take(r, n), key)
    ensures multiset(Take(r, n)) <= multiset(s)
    ensures forall x, y :: x in multiset(s) - multiset(Take(r, n)) && y in Take(r, n) ==> key(x) <= key(y)
  {
    var top := Take(r, n);
    var k := |top|;
    assert top == r[..k];
    assert r == top + r[k..];
    assert multiset(s) == multiset(top) + multiset(r[k..]);
    LaterAreNoNewer(r, k, key);
    forall x, y | x in multiset(s) - multiset(top) && y in top
      ensures key(x) <= key(y)
    {
      assert x in multiset(r[k..]);
    }
  }
}
