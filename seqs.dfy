/** Sequence operations of JavaScript arrays and query results: the stable
    sort `Array.prototype.sort` performs with a comparator that orders by a
    numeric key pair (written as an insertion sort), `reverse`, `take` and
    `filter`. */
module Seqs {
  import opened Wrappers

  /** Lexicographic order on key pairs. */
  predicate KeyLe(a: (int, int), b: (int, int)) {
    a.0 < b.0 || (a.0 == b.0 && a.1 <= b.1)
  }

  predicate SortedBy<T>(s: seq<T>, key: T -> (int, int)) {
    forall i, j :: 0 <= i < j < |s| ==> KeyLe(key(s[i]), key(s[j]))
  }

  /** Inserts `x` after every element whose key is not above its own. */
  function Insert<T>(x: T, s: seq<T>, key: T -> (int, int)): (r: seq<T>)
    ensures multiset(r) == multiset(s) + multiset{x}
    ensures |r| == |s| + 1
  {
    if s == [] then [x]
    else if KeyLe(key(s[0]), key(x)) then
      assert s == [s[0]] + s[1..];
      [s[0]] + Insert(x, s[1..], key)
    else
      [x] + s
  }

  lemma {:induction false} InsertSorted<T>(x: T, s: seq<T>, key: T -> (int, int))
    requires SortedBy(s, key)
    ensures SortedBy(Insert(x, s, key), key)
  {
    if s != [] && KeyLe(key(s[0]), key(x)) {
      var t := Insert(x, s[1..], key);
      InsertSorted(x, s[1..], key);
      forall k | 0 <= k < |t| ensures KeyLe(key(s[0]), key(t[k])) {
        assert t[k] in multiset(t);
        if t[k] != x {
          assert t[k] in multiset(s[1..]);
          var m :| 0 <= m < |s[1..]| && s[1..][m] == t[k];
          assert s[m + 1] == t[k];
        }
      }
      assert Insert(x, s, key) == [s[0]] + t;
    }
  }

  /** The elements of `s` ordered by `key`; equal keys keep their order. */
  function SortBy<T>(s: seq<T>, key: T -> (int, int)): (r: seq<T>)
    ensures multiset(r) == multiset(s)
    ensures |r| == |s|
    ensures SortedBy(r, key)
  {
    if s == [] then []
    else
      assert s == s[..|s| - 1] + [s[|s| - 1]];
      InsertSorted(s[|s| - 1], SortBy(s[..|s| - 1], key), key);
      Insert(s[|s| - 1], SortBy(s[..|s| - 1], key), key)
  }

  /** Holds of the elements whose key is `kv`. */
  function KeyIs<T>(key: T -> (int, int), kv: (int, int)): T -> bool {
    x => key(x) == kv
  }

  /** Inserting into a sorted sequence puts `x` after every element with its
      key, so among the elements with any one key `x` comes last. */
  lemma {:induction false} InsertStable<T>(x: T, s: seq<T>, key: T -> (int, int), kv: (int, int))
    requires SortedBy(s, key)
    ensures Filter(Insert(x, s, key), KeyIs(key, kv)) ==
      Filter(s, KeyIs(key, kv)) + (if key(x) == kv then [x] else [])
  {
    var p := KeyIs(key, kv);
    if s == [] {
      assert Insert(x, s, key) == [x];
      assert Filter([x], p) == (if p(x) then [x] else []) + Filter([x][1..], p);
    } else if KeyLe(key(s[0]), key(x)) {
      InsertStable(x, s[1..], key, kv);
      var t := Insert(x, s[1..], key);
      assert Insert(x, s, key) == [s[0]] + t;
      assert ([s[0]] + t)[1..] == t;
    } else {
      assert Insert(x, s, key) == [x] + s;
      assert ([x] + s)[1..] == s;
      if key(x) == kv {
        forall k | 0 <= k < |s| ensures !p(s[k]) {
          assert KeyLe(key(s[0]), key(s[k]));
        }
        FilterNone(s, p);
      }
    }
  }

  lemma {:induction false} FilterNone<T>(s: seq<T>, p: T -> bool)
    requires forall k :: 0 <= k < |s| ==> !p(s[k])
    ensures Filter(s, p) == []
  {
    if s != [] {
      FilterNone(s[1..], p);
    }
  }

  /** The sort is stable: the elements with any one key come out in the
      order they went in. */
  lemma {:induction false} SortByStable<T>(s: seq<T>, key: T -> (int, int), kv: (int, int))
    ensures Filter(SortBy(s, key), KeyIs(key, kv)) == Filter(s, KeyIs(key, kv))
  {
    if s != [] {
      var p := KeyIs(key, kv);
      var init, last := s[..|s| - 1], s[|s| - 1];
      var sorted := SortBy(init, key);
      assert SortBy(s, key) == Insert(last, sorted, key);
      SortByStable(init, key, kv);
      InsertStable(last, sorted, key, kv);
      assert s == init + [last];
      FilterAppend(init, p, last);
      assert p(last) == (key(last) == kv);
    }
  }

  function Reverse<T>(s: seq<T>): (r: seq<T>)
    ensures |r| == |s|
    ensures forall i :: 0 <= i < |s| ==> r[i] == s[|s| - 1 - i]
  {
    if s == [] then [] else Reverse(s[1..]) + [s[0]]
  }

  lemma ReverseMultiset<T>(s: seq<T>)
    ensures multiset(Reverse(s)) == multiset(s)
  {
    if s != [] {
      ReverseMultiset(s[1..]);
      assert s == [s[0]] + s[1..];
    }
  }

  /** The first `n` elements, or all of them when there are fewer:
      `take(n)` on a query. */
  function Take<T>(s: seq<T>, n: nat): (r: seq<T>)
    ensures |r| == if n < |s| then n else |s|
    ensures r == s[..|r|]
  {
    if n < |s| then s[..n] else s
  }

  /** `take(n)` keeps part of `s`, and whatever it leaves out sits at a
      position after every element it keeps. */
  lemma TakeLeavesTail<T>(s: seq<T>, n: nat)
    ensures multiset(Take(s, n)) <= multiset(s)
    ensures forall x :: x in s && x !in Take(s, n) ==> exists j :: |Take(s, n)| <= j < |s| && s[j] == x
  {
    var r := Take(s, n);
    assert s == r + s[|r|..];
    forall x | x in s && x !in r ensures exists j :: |r| <= j < |s| && s[j] == x {
      var j :| 0 <= j < |s| && s[j] == x;
      assert forall k :: 0 <= k < |r| ==> r[k] == s[k];
      assert |r| <= j;
    }
  }

  /** On a sequence ordered by `before`, what `take(n)` leaves out never
      comes before what it keeps. */
  lemma TakeKeepsFirst<T>(s: seq<T>, n: nat, before: (T, T) -> bool)
    requires forall i, j :: 0 <= i < j < |s| ==> before(s[i], s[j])
    ensures forall m, x :: m in s && m !in Take(s, n) && x in Take(s, n) ==> before(x, m)
  {
    var r := Take(s, n);
    TakeLeavesTail(s, n);
    forall m, x | m in s && m !in r && x in r ensures before(x, m) {
      var j :| |r| <= j < |s| && s[j] == m;
      var i :| 0 <= i < |r| && r[i] == x;
      assert s[i] == x;
    }
  }

  /** On a sequence ordered by `before`, `take(n)` after `reverse` keeps
      the last elements: what it leaves out never comes after what it keeps. */
  lemma TakeReverseKeepsLast<T>(s: seq<T>, n: nat, before: (T, T) -> bool)
    requires forall i, j :: 0 <= i < j < |s| ==> before(s[i], s[j])
    ensures multiset(Take(Reverse(s), n)) <= multiset(s)
    ensures forall m, x :: m in s && m !in Take(Reverse(s), n) && x in Take(Reverse(s), n) ==> before(m, x)
  {
    var rev := Reverse(s);
    var after := (a: T, b: T) => before(b, a);
    forall i, j | 0 <= i < j < |rev| ensures after(rev[i], rev[j]) {
      assert rev[i] == s[|s| - 1 - i] && rev[j] == s[|s| - 1 - j];
    }
    ReverseMultiset(s);
    TakeLeavesTail(rev, n);
    assert forall m :: m in s ==> m in rev by {
      forall m | m in s ensures m in rev {
        assert m in multiset(s);
      }
    }
    TakeKeepsFirst(rev, n, after);
  }

  /** The elements of `s` that satisfy `p`, in order. */
  function Filter<T>(s: seq<T>, p: T -> bool): (r: seq<T>)
    ensures |r| <= |s|
    ensures forall i :: 0 <= i < |r| ==> r[i] in s && p(r[i])
    ensures forall i :: 0 <= i < |s| && p(s[i]) ==> s[i] in r
  {
    if s == [] then []
    else
      assert s == [s[0]] + s[1..];
      (if p(s[0]) then [s[0]] else []) + Filter(s[1..], p)
  }

  /** An element of `s` that fails `p` can be replaced by another that fails
      it without changing the filtered sequence. */
  lemma {:induction false} FilterUpdateRejected<T>(s: seq<T>, p: T -> bool, i: nat, x: T)
    requires i < |s| && !p(s[i]) && !p(x)
    ensures Filter(s[i := x], p) == Filter(s, p)
  {
    assert s == [s[0]] + s[1..];
    assert s[i := x] == [s[i := x][0]] + s[i := x][1..];
    if i > 0 {
      assert s[i := x][1..] == s[1..][i - 1 := x];
      FilterUpdateRejected(s[1..], p, i - 1, x);
    }
  }

  /** Appending an element that fails `p` does not change the filtered sequence. */
  lemma {:induction false} FilterAppendRejected<T>(s: seq<T>, p: T -> bool, x: T)
    requires !p(x)
    ensures Filter(s + [x], p) == Filter(s, p)
  {
    if s == [] {
      assert Filter([x][1..], p) == [];
    } else {
      assert (s + [x])[0] == s[0] && (s + [x])[1..] == s[1..] + [x];
      FilterAppendRejected(s[1..], p, x);
    }
  }

  /** Filtering over one more element at the end. */
  lemma {:induction false} FilterAppend<T>(s: seq<T>, p: T -> bool, x: T)
    ensures Filter(s + [x], p) == Filter(s, p) + (if p(x) then [x] else [])
  {
    if s == [] {
      assert Filter([x][1..], p) == [];
    } else {
      assert (s + [x])[0] == s[0] && (s + [x])[1..] == s[1..] + [x];
      FilterAppend(s[1..], p, x);
    }
  }

  /** The last element kept by a filter is the last element that passes. */
  lemma {:induction false} FilterLast<T>(s: seq<T>, p: T -> bool)
    ensures match LastIndex(s, p)
      case None => Filter(s, p) == []
      case Some(i) => Filter(s, p) != [] && Filter(s, p)[|Filter(s, p)| - 1] == s[i]
  {
    if s != [] {
      var t := s[..|s| - 1];
      var x := s[|s| - 1];
      assert s == t + [x];
      FilterAppend(t, p, x);
      if !p(x) {
        FilterLast(t, p);
      }
    }
  }

  /** Removing an element that fails `p` does not change the filtered sequence. */
  lemma {:induction false} FilterRemoveRejected<T>(s: seq<T>, p: T -> bool, i: nat)
    requires i < |s| && !p(s[i])
    ensures Filter(s[..i] + s[i + 1..], p) == Filter(s, p)
  {
    if i == 0 {
      assert s[..0] + s[1..] == s[1..];
    } else {
      var t := s[..i] + s[i + 1..];
      assert t[0] == s[0];
      assert t[1..] == s[1..][..i - 1] + s[1..][i..];
      FilterRemoveRejected(s[1..], p, i - 1);
    }
  }

  /** The index of the first element satisfying `p`: what `find` and
      `.first()` on a filtered query select. */
  function FirstIndex<T>(s: seq<T>, p: T -> bool): (r: Option<nat>)
    ensures r.Some? ==> r.value < |s| && p(s[r.value]) && forall k :: 0 <= k < r.value ==> !p(s[k])
    ensures r.None? ==> forall k :: 0 <= k < |s| ==> !p(s[k])
  {
    if s == [] then None
    else if p(s[0]) then Some(0)
    else match FirstIndex(s[1..], p)
      case None => None
      case Some(k) => Some(k + 1)
  }

  /** The index of the last element satisfying `p`: the entry a `Map` built
      from `s` keeps for a key, later entries overwriting earlier ones. */
  function LastIndex<T>(s: seq<T>, p: T -> bool): (r: Option<nat>)
    ensures r.Some? ==> r.value < |s| && p(s[r.value]) && forall k :: r.value < k < |s| ==> !p(s[k])
    ensures r.None? ==> forall k :: 0 <= k < |s| ==> !p(s[k])
  {
    if s == [] then None
    else if p(s[|s| - 1]) then Some(|s| - 1)
    else LastIndex(s[..|s| - 1], p)
  }

  /** `s.map(f)`. */
  function MapAll<T, U>(s: seq<T>, f: T -> U): (r: seq<U>)
    ensures |r| == |s|
    ensures forall k :: 0 <= k < |s| ==> r[k] == f(s[k])
  {
    seq(|s|, k requires 0 <= k < |s| => f(s[k]))
  }

  /** `s` without its element at `i`. */
  function RemoveAt<T>(s: seq<T>, i: nat): (r: seq<T>)
    requires i < |s|
    ensures |r| == |s| - 1
    ensures forall k :: 0 <= k < i ==> r[k] == s[k]
    ensures forall k :: i <= k < |r| ==> r[k] == s[k + 1]
  {
    s[..i] + s[i + 1..]
  }

  predicate Pairwise<T>(s: seq<T>, rel: (T, T) -> bool) {
    forall i, j :: 0 <= i < j < |s| ==> rel(s[i], s[j])
  }

  /** Filtering keeps the relative order of the elements it keeps. */
  lemma {:induction false} FilterPairwise<T>(s: seq<T>, p: T -> bool, rel: (T, T) -> bool)
    requires Pairwise(s, rel)
    ensures Pairwise(Filter(s, p), rel)
  {
    if s != [] {
      var t := Filter(s[1..], p);
      assert Pairwise(s[1..], rel) by {
        forall i, j | 0 <= i < j < |s[1..]| ensures rel(s[1..][i], s[1..][j]) {
          assert s[1..][i] == s[i + 1] && s[1..][j] == s[j + 1];
        }
      }
      FilterPairwise(s[1..], p, rel);
      if p(s[0]) {
        var f := [s[0]] + t;
        assert Filter(s, p) == f;
        forall i, j | 0 <= i < j < |f| ensures rel(f[i], f[j]) {
          if i == 0 {
            assert f[j] == t[j - 1];
            assert t[j - 1] in s[1..];
            var m :| 0 <= m < |s[1..]| && s[1..][m] == t[j - 1];
            assert s[m + 1] == f[j];
          } else {
            assert f[i] == t[i - 1] && f[j] == t[j - 1];
          }
        }
      } else {
        assert Filter(s, p) == t;
      }
    }
  }

  /** The number of elements of `s` that satisfy `p`: what a loop with a
      counter over `s` reaches. */
  function Count<T>(s: seq<T>, p: T -> bool): (n: nat)
    ensures n <= |s|
  {
    if s == [] then 0 else Count(s[..|s| - 1], p) + (if p(s[|s| - 1]) then 1 else 0)
  }

  /** Counting over one more element. */
  lemma CountStep<T>(s: seq<T>, p: T -> bool, i: nat)
    requires i < |s|
    ensures Count(s[..i + 1], p) == Count(s[..i], p) + (if p(s[i]) then 1 else 0)
  {
    assert s[..i + 1][..i] == s[..i];
  }

  /** Nothing is counted where nothing passes. */
  lemma {:induction false} CountNone<T>(s: seq<T>, p: T -> bool)
    requires forall k :: 0 <= k < |s| ==> !p(s[k])
    ensures Count(s, p) == 0
  {
    if s != [] {
      CountNone(s[..|s| - 1], p);
    }
  }

  /** Filtering a sequence whose every element passes changes nothing. */
  lemma {:induction false} FilterAll<T>(s: seq<T>, p: T -> bool)
    requires forall k :: 0 <= k < |s| ==> p(s[k])
    ensures Filter(s, p) == s
  {
    if s != [] {
      FilterAll(s[1..], p);
      assert s == [s[0]] + s[1..];
    }
  }
}
