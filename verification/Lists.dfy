/**
 * The list combinators the storefront builds every view and every state
 * update from: `find`, `filter`, `map` over a matching id, `reduce` to a sum,
 * `filter` by index, and a stable comparator sort.
 */
module Lists {
  import opened Wrappers

  /** `a` is an order-preserving subsequence of `b`. */
  ghost predicate IsSubsequence<T>(a: seq<T>, b: seq<T>)
    decreases |b|
  {
    && |a| <= |b|
    && (|a| == 0
        || (a[0] == b[0] && IsSubsequence(a[1..], b[1..]))
        || IsSubsequence(a, b[1..]))
  }

  /** Index of the first element that satisfies `p` (`Array.prototype.findIndex`). */
  function FindFirst<T>(s: seq<T>, p: T -> bool): (r: Option<nat>)
    ensures r.Some? ==> r.value < |s| && p(s[r.value])
    ensures r.Some? ==> forall j :: 0 <= j < r.value ==> !p(s[j])
    ensures r.None? <==> forall j :: 0 <= j < |s| ==> !p(s[j])
    decreases |s|
  {
    if |s| == 0 then None
    else if p(s[0]) then Some(0)
    else
      match FindFirst(s[1..], p)
      case None => None
      case Some(k) => Some(k + 1)
  }

  /** The first element that satisfies `p` (`Array.prototype.find`). */
  function Find<T>(s: seq<T>, p: T -> bool): (r: Option<T>)
    ensures r.Some? ==> r.value in s && p(r.value)
    ensures r.None? <==> forall j :: 0 <= j < |s| ==> !p(s[j])
  {
    match FindFirst(s, p)
    case None => None
    case Some(i) => Some(s[i])
  }

  /** `Find` returns the element at the first index that satisfies `p`. */
  lemma FindIsFirst<T>(s: seq<T>, p: T -> bool, i: nat)
    requires i < |s| && p(s[i])
    requires forall j :: 0 <= j < i ==> !p(s[j])
    ensures Find(s, p) == Some(s[i])
  {
    assert FindFirst(s, p).Some?;
  }

  /** The elements that satisfy `p`, in their original order (`Array.prototype.filter`). */
  function Filter<T>(s: seq<T>, p: T -> bool): (r: seq<T>)
    ensures |r| <= |s|
    ensures forall x :: x in r ==> x in s && p(x)
    decreases |s|
  {
    if |s| == 0 then []
    else if p(s[0]) then [s[0]] + Filter(s[1..], p)
    else Filter(s[1..], p)
  }

  /** Filtering keeps every passing element as often as it occurs, and nothing else. */
  lemma {:induction false} FilterMultiset<T>(s: seq<T>, p: T -> bool)
    ensures forall x :: x in s ==> multiset(Filter(s, p))[x] == if p(x) then multiset(s)[x] else 0
    decreases |s|
  {
    if |s| > 0 {
      FilterMultiset(s[1..], p);
      assert s == [s[0]] + s[1..];
      assert multiset(s) == multiset{s[0]} + multiset(s[1..]);
    }
  }

  /** Filtering keeps the original order. */
  lemma {:induction false} FilterIsSubsequence<T>(s: seq<T>, p: T -> bool)
    ensures IsSubsequence(Filter(s, p), s)
    decreases |s|
  {
    if |s| > 0 {
      FilterIsSubsequence(s[1..], p);
      var r := Filter(s, p);
      if p(s[0]) {
        assert r[0] == s[0] && r[1..] == Filter(s[1..], p);
      }
    }
  }

  lemma {:induction false} FilterAppend<T>(a: seq<T>, b: seq<T>, p: T -> bool)
    ensures Filter(a + b, p) == Filter(a, p) + Filter(b, p)
    decreases |a|
  {
    if |a| == 0 {
      assert a + b == b;
    } else {
      assert (a + b)[1..] == a[1..] + b;
      FilterAppend(a[1..], b, p);
    }
  }

  /** Filtering keeps everything exactly when every element passes. */
  lemma {:induction false} FilterKeepsAll<T>(s: seq<T>, p: T -> bool)
    ensures Filter(s, p) == s <==> forall j :: 0 <= j < |s| ==> p(s[j])
    decreases |s|
  {
    if |s| > 0 {
      FilterKeepsAll(s[1..], p);
      if !p(s[0]) {
        // the result is a strict subsequence of the tail
        assert |Filter(s, p)| <= |s[1..]| < |s|;
      } else {
        assert s == [s[0]] + s[1..];
        assert Filter(s, p) == s <==> Filter(s[1..], p) == s[1..];
        if forall j :: 0 <= j < |s| ==> p(s[j]) {
          assert forall j :: 0 <= j < |s[1..]| ==> p(s[1..][j]) by {
            forall j | 0 <= j < |s[1..]| ensures p(s[1..][j]) { assert s[1..][j] == s[j + 1]; }
          }
        } else {
          var j :| 0 <= j < |s| && !p(s[j]);
          assert j > 0 && s[1..][j - 1] == s[j];
        }
      }
    }
  }

  lemma FilterIdempotent<T>(s: seq<T>, p: T -> bool)
    ensures Filter(Filter(s, p), p) == Filter(s, p)
  {
    var r := Filter(s, p);
    assert forall j :: 0 <= j < |r| ==> p(r[j]) by {
      forall j | 0 <= j < |r| ensures p(r[j]) { assert r[j] in r; }
    }
    FilterKeepsAll(r, p);
  }

  /** The number of elements that satisfy `p` (`s.filter(p).length`). */
  function Count<T>(s: seq<T>, p: T -> bool): (n: nat)
    ensures n <= |s|
  {
    |Filter(s, p)|
  }

  /** Counting over no elements gives 0, and one more element adds one exactly when it passes. */
  lemma CountAppendOne<T>(s: seq<T>, x: T, p: T -> bool)
    ensures Count([], p) == 0
    ensures Count(s + [x], p) == Count(s, p) + (if p(x) then 1 else 0)
  {
    FilterAppend(s, [x], p);
    assert [x][1..] == [];
  }

  /** Two predicates that never hold together count no more than the list holds. */
  lemma {:induction false} CountDisjoint<T>(s: seq<T>, p: T -> bool, q: T -> bool)
    requires forall x :: !(p(x) && q(x))
    ensures Count(s, p) + Count(s, q) <= |s|
    decreases |s|
  {
    if |s| > 0 {
      CountDisjoint(s[1..], p, q);
    }
  }

  /** `s[i] := f(s[i])` wherever `p(s[i])` holds (`s.map(x => p(x) ? f(x) : x)`). */
  function MapWhere<T>(s: seq<T>, p: T -> bool, f: T -> T): (r: seq<T>)
    ensures |r| == |s|
    ensures forall i :: 0 <= i < |s| ==> r[i] == if p(s[i]) then f(s[i]) else s[i]
    decreases |s|
  {
    if |s| == 0 then []
    else [if p(s[0]) then f(s[0]) else s[0]] + MapWhere(s[1..], p, f)
  }

  /** `s.reduce((sum, x) => sum + f(x), 0)`. */
  function SumOf<T>(s: seq<T>, f: T -> real): (r: real)
    ensures |s| == 0 ==> r == 0.0
    ensures |s| == 1 ==> r == f(s[0])
    decreases |s|
  {
    if |s| == 0 then 0.0 else f(s[0]) + SumOf(s[1..], f)
  }

  lemma {:induction false} SumOfAppend<T>(a: seq<T>, b: seq<T>, f: T -> real)
    ensures SumOf(a + b, f) == SumOf(a, f) + SumOf(b, f)
    decreases |a|
  {
    if |a| == 0 {
      assert a + b == b;
    } else {
      assert (a + b)[1..] == a[1..] + b;
      SumOfAppend(a[1..], b, f);
    }
  }

  /** A sum of non-negative terms is non-negative. */
  lemma {:induction false} SumOfNonNegative<T>(s: seq<T>, f: T -> real)
    requires forall j :: 0 <= j < |s| ==> f(s[j]) >= 0.0
    ensures SumOf(s, f) >= 0.0
    decreases |s|
  {
    if |s| > 0 {
      assert forall j :: 0 <= j < |s[1..]| ==> f(s[1..][j]) >= 0.0 by {
        forall j | 0 <= j < |s[1..]| ensures f(s[1..][j]) >= 0.0 { assert s[1..][j] == s[j + 1]; }
      }
      SumOfNonNegative(s[1..], f);
    }
  }

  /** Splitting a list by a predicate splits its sum. */
  lemma {:induction false} SumOfPartition<T>(s: seq<T>, p: T -> bool, q: T -> bool, f: T -> real)
    requires forall x :: q(x) == !p(x)
    ensures SumOf(Filter(s, p), f) + SumOf(Filter(s, q), f) == SumOf(s, f)
    decreases |s|
  {
    if |s| > 0 {
      SumOfPartition(s[1..], p, q, f);
      if p(s[0]) {
        assert Filter(s, p) == [s[0]] + Filter(s[1..], p);
        SumOfAppend([s[0]], Filter(s[1..], p), f);
      } else {
        assert Filter(s, q) == [s[0]] + Filter(s[1..], q);
        SumOfAppend([s[0]], Filter(s[1..], q), f);
      }
    }
  }

  /** `s.filter((_, j) => j !== i)`: drop the element at index `i`, if there is one. */
  function RemoveAt<T>(s: seq<T>, i: int): (r: seq<T>)
    ensures 0 <= i < |s| ==> r == s[..i] + s[i + 1..]
    ensures !(0 <= i < |s|) ==> r == s
    decreases |s|
  {
    if |s| == 0 then []
    else if i == 0 then s[1..]
    else
      var r := [s[0]] + RemoveAt(s[1..], i - 1);
      assert 0 < i < |s| ==> r == [s[0]] + (s[1..][..i - 1] + s[1..][i..]) == s[..i] + s[i + 1..];
      assert !(0 <= i < |s|) ==> r == [s[0]] + s[1..] == s;
      r
  }

  // ---------------------------------------------------------------------
  // Stable sort by a numeric key. `Array.prototype.sort` with the comparator
  // `(a, b) => key(a) - key(b)` is stable (ECMAScript 2019), so it agrees with
  // an insertion sort that puts each later element after every earlier one
  // whose key is not larger.

  ghost predicate SortedByKey<T>(s: seq<T>, key: T -> real) {
    forall i, j :: 0 <= i < j < |s| ==> key(s[i]) <= key(s[j])
  }

  /** Puts `x` after every element of `ys` whose key is not larger than its own. */
  function InsertByKey<T>(x: T, ys: seq<T>, key: T -> real): (r: seq<T>)
    ensures multiset(r) == multiset(ys) + multiset{x}
    decreases |ys|
  {
    if |ys| == 0 then [x]
    else if key(x) < key(ys[0]) then [x] + ys
    else
      assert ys == [ys[0]] + ys[1..];
      [ys[0]] + InsertByKey(x, ys[1..], key)
  }

  /** Inserting into a sorted list keeps it sorted. */
  lemma {:induction false} InsertByKeySorted<T>(x: T, ys: seq<T>, key: T -> real)
    requires SortedByKey(ys, key)
    ensures SortedByKey(InsertByKey(x, ys, key), key)
    decreases |ys|
  {
    if |ys| > 0 && key(ys[0]) <= key(x) {
      var tail := ys[1..];
      SortedTail(ys, key);
      InsertByKeySorted(x, tail, key);
      var rest := InsertByKey(x, tail, key);
      forall k | 0 <= k < |rest| ensures key(ys[0]) <= key(rest[k]) {
        assert rest[k] in multiset(rest);
        if rest[k] != x {
          assert rest[k] in tail;
        }
      }
    }
  }

  function SortByKey<T>(s: seq<T>, key: T -> real): (r: seq<T>)
    ensures multiset(r) == multiset(s)
    ensures SortedByKey(r, key)
    decreases |s|
  {
    if |s| == 0 then []
    else
      var init, last := s[..|s| - 1], s[|s| - 1];
      assert s == init + [last];
      assert SortedByKey(InsertByKey(last, SortByKey(init, key), key), key) by {
        InsertByKeySorted(last, SortByKey(init, key), key);
      }
      InsertByKey(last, SortByKey(init, key), key)
  }

  /** The elements whose key is `k`. */
  function KeyIs<T>(key: T -> real, k: real): T -> bool {
    y => key(y) == k
  }

  lemma FilterNone<T>(s: seq<T>, p: T -> bool)
    requires forall j :: 0 <= j < |s| ==> !p(s[j])
    ensures Filter(s, p) == []
  {
  }

  lemma SortedTail<T>(ys: seq<T>, key: T -> real)
    requires |ys| > 0 && SortedByKey(ys, key)
    ensures SortedByKey(ys[1..], key)
  {
    var tail := ys[1..];
    forall i, j | 0 <= i < j < |tail| ensures key(tail[i]) <= key(tail[j]) {
      assert tail[i] == ys[i + 1] && tail[j] == ys[j + 1];
    }
  }

  /** The recursive case of `InsertByKeyStable`: `x` goes after the head of `ys`. */
  lemma {:induction false} InsertByKeyStableStep<T>(x: T, ys: seq<T>, key: T -> real, k: real)
    requires |ys| > 0 && key(ys[0]) <= key(x)
    requires SortedByKey(ys, key)
    ensures Filter(InsertByKey(x, ys, key), KeyIs(key, k))
         == Filter(ys, KeyIs(key, k)) + (if key(x) == k then [x] else [])
    decreases |ys|, 0
  {
    var eq := KeyIs(key, k);
    var tail := ys[1..];
    var rest := InsertByKey(x, tail, key);
    SortedTail(ys, key);
    InsertByKeyStable(x, tail, key, k);
    FilterBehindHead(ys[0], tail, rest, eq, if key(x) == k then [x] else []);
    assert InsertByKey(x, ys, key) == [ys[0]] + rest;
    assert ys == [ys[0]] + tail;
  }

  /** An element put in front of two lists whose filters differ by a suffix keeps that difference. */
  lemma {:induction false} FilterBehindHead<T>(y: T, tail: seq<T>, rest: seq<T>, p: T -> bool, suffix: seq<T>)
    requires Filter(rest, p) == Filter(tail, p) + suffix
    ensures Filter([y] + rest, p) == Filter([y] + tail, p) + suffix
  {
    FilterAppend([y], rest, p);
    FilterAppend([y], tail, p);
    var h := Filter([y], p);
    assert h + (Filter(tail, p) + suffix) == (h + Filter(tail, p)) + suffix;
  }

  /** With `x` below every key of a sorted `ys`, no element of `ys` has the key of `x`. */
  lemma BelowAllKeys<T>(x: T, ys: seq<T>, key: T -> real)
    requires SortedByKey(ys, key)
    requires |ys| > 0 && key(x) < key(ys[0])
    ensures forall j :: 0 <= j < |ys| ==> key(ys[j]) != key(x)
  {
    forall j | 0 < j < |ys| ensures key(ys[0]) <= key(ys[j]) { }
  }

  /** The front case of `InsertByKeyStable`: `x` goes before every element of `ys`. */
  lemma InsertByKeyStableFront<T>(x: T, ys: seq<T>, key: T -> real, k: real)
    requires SortedByKey(ys, key)
    requires |ys| > 0 && key(x) < key(ys[0])
    ensures Filter(InsertByKey(x, ys, key), KeyIs(key, k))
         == Filter(ys, KeyIs(key, k)) + (if key(x) == k then [x] else [])
  {
    var eq := KeyIs(key, k);
    var r := [x] + ys;
    assert r[0] == x && r[1..] == ys;
    if key(x) == k {
      BelowAllKeys(x, ys, key);
      FilterNone(ys, eq);
    }
  }

  /** Inserting `x` keeps, among the elements with key `k`, the earlier ones first. */
  lemma {:induction false} InsertByKeyStable<T>(x: T, ys: seq<T>, key: T -> real, k: real)
    requires SortedByKey(ys, key)
    ensures Filter(InsertByKey(x, ys, key), KeyIs(key, k))
         == Filter(ys, KeyIs(key, k)) + (if key(x) == k then [x] else [])
    decreases |ys|, 1
  {
    if |ys| == 0 {
      assert [x][1..] == [];
    } else if key(x) < key(ys[0]) {
      InsertByKeyStableFront(x, ys, key, k);
    } else {
      InsertByKeyStableStep(x, ys, key, k);
    }
  }

  /**
   * The sort is stable: the elements sharing any one key keep their original
   * relative order.
   */
  lemma {:induction false} SortByKeyStable<T>(s: seq<T>, key: T -> real, k: real)
    ensures Filter(SortByKey(s, key), KeyIs(key, k)) == Filter(s, KeyIs(key, k))
    decreases |s|
  {
    if |s| > 0 {
      var init, last := s[..|s| - 1], s[|s| - 1];
      assert s == init + [last];
      SortByKeyStable(init, key, k);
      InsertByKeyStable(last, SortByKey(init, key), key, k);
      FilterAppend(init, [last], KeyIs(key, k));
      assert Filter([last], KeyIs(key, k)) == (if key(last) == k then [last] else []) by {
        assert [last][1..] == [];
      }
    }
  }

  /** With a key that never tells two elements apart, the sort keeps the list as it is. */
  lemma SortByConstantKeyIsIdentity<T>(s: seq<T>, key: T -> real, c: real)
    requires forall x :: key(x) == c
    ensures SortByKey(s, key) == s
  {
    var r := SortByKey(s, key);
    var eq := KeyIs(key, c);
    SortByKeyStable(s, key, c);
    FilterKeepsAll(r, eq);
    FilterKeepsAll(s, eq);
    assert Filter(r, eq) == r;
    assert Filter(s, eq) == s;
  }
}
