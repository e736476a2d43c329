/**
 * Python's `sorted` with a key, as a stable insertion sort over an order `le` on elements:
 * `le(a, b)` says that the key of `a` is at most the key of `b`.
 */
module Sorting {

  /** `le` orders every pair of elements, transitively: a total preorder. */
  ghost predicate TotalPreorder<T(!new)>(le: (T, T) -> bool) {
    && (forall a, b :: le(a, b) || le(b, a))
    && (forall a, b, c :: le(a, b) && le(b, c) ==> le(a, c))
  }

  predicate Sorted<T>(s: seq<T>, le: (T, T) -> bool) {
    forall i, j :: 0 <= i < j < |s| ==> le(s[i], s[j])
  }

  /** `a` and `b` have the same key. */
  predicate Tied<T>(a: T, b: T, le: (T, T) -> bool) {
    le(a, b) && le(b, a)
  }

  /** Places `x` in front of the first element whose key is not smaller than its own. */
  function Insert<T>(x: T, s: seq<T>, le: (T, T) -> bool): (r: seq<T>)
    ensures |r| == |s| + 1
  {
    if s == [] then [x]
    else if le(x, s[0]) then [x] + s
    else [s[0]] + Insert(x, s[1..], le)
  }

  /** `sorted(s, key=...)`. */
  function SortBy<T>(s: seq<T>, le: (T, T) -> bool): (r: seq<T>)
    ensures |r| == |s|
  {
    if s == [] then [] else Insert(s[0], SortBy(s[1..], le), le)
  }

  lemma {:induction false} InsertPermutation<T>(x: T, s: seq<T>, le: (T, T) -> bool)
    ensures multiset(Insert(x, s, le)) == multiset{x} + multiset(s)
  {
    if s != [] && !le(x, s[0]) {
      InsertPermutation(x, s[1..], le);
      assert s == [s[0]] + s[1..];
    }
  }

  lemma {:induction false} InsertSorted<T(!new)>(x: T, s: seq<T>, le: (T, T) -> bool)
    requires TotalPreorder(le)
    requires Sorted(s, le)
    ensures Sorted(Insert(x, s, le), le)
  {
    if s != [] && !le(x, s[0]) {
      InsertSorted(x, s[1..], le);
      var t := Insert(x, s[1..], le);
      InsertPermutation(x, s[1..], le);
      forall j | 0 <= j < |t|
        ensures le(s[0], t[j])
      {
        assert t[j] in multiset(t);
        assert t[j] == x || t[j] in multiset(s[1..]);
      }
    }
  }

  /** The sorted sequence holds exactly the elements it was given. */
  lemma {:induction false} SortPermutation<T>(s: seq<T>, le: (T, T) -> bool)
    ensures multiset(SortBy(s, le)) == multiset(s)
  {
    if s != [] {
      SortPermutation(s[1..], le);
      InsertPermutation(s[0], SortBy(s[1..], le), le);
      assert s == [s[0]] + s[1..];
    }
  }

  /** The sorted sequence is in key order. */
  lemma {:induction false} SortSorted<T(!new)>(s: seq<T>, le: (T, T) -> bool)
    requires TotalPreorder(le)
    ensures Sorted(SortBy(s, le), le)
  {
    if s != [] {
      SortSorted(s[1..], le);
      InsertSorted(s[0], SortBy(s[1..], le), le);
    }
  }

  /** The elements of `s` with the key of `k`, in order. */
  function TiedWith<T>(s: seq<T>, k: T, le: (T, T) -> bool): (r: seq<T>)
    ensures |r| <= |s|
  {
    if s == [] then []
    else (if Tied(s[0], k, le) then [s[0]] else []) + TiedWith(s[1..], k, le)
  }

  lemma TiedWithCons<T>(y: T, t: seq<T>, k: T, le: (T, T) -> bool)
    ensures TiedWith([y] + t, k, le) == (if Tied(y, k, le) then [y] else []) + TiedWith(t, k, le)
  {
    assert ([y] + t)[1..] == t;
  }

  /** Two elements out of order under `le` do not both share the key of `k`. */
  lemma NotBothTied<T(!new)>(x: T, y: T, k: T, le: (T, T) -> bool)
    requires TotalPreorder(le)
    requires !le(x, y)
    ensures !(Tied(x, k, le) && Tied(y, k, le))
  {
    assert le(x, k) && le(k, y) ==> le(x, y);
  }

  lemma {:induction false} InsertTiedWith<T(!new)>(x: T, s: seq<T>, k: T, le: (T, T) -> bool)
    requires TotalPreorder(le)
    ensures TiedWith(Insert(x, s, le), k, le) == (if Tied(x, k, le) then [x] else []) + TiedWith(s, k, le)
  {
    if s == [] {
      TiedWithCons(x, s, k, le);
    } else if le(x, s[0]) {
      TiedWithCons(x, s, k, le);
    } else {
      var y, rest := s[0], s[1..];
      var t := Insert(x, rest, le);
      assert s == [y] + rest;
      InsertTiedWith(x, rest, k, le);
      TiedWithCons(y, t, k, le);
      TiedWithCons(y, rest, k, le);
      NotBothTied(x, y, k, le);
    }
  }

  /** Elements with the same key keep the order they had: the sort is stable. */
  lemma {:induction false} SortStable<T(!new)>(s: seq<T>, k: T, le: (T, T) -> bool)
    requires TotalPreorder(le)
    ensures TiedWith(SortBy(s, le), k, le) == TiedWith(s, k, le)
  {
    if s != [] {
      SortStable(s[1..], k, le);
      InsertTiedWith(s[0], SortBy(s[1..], le), k, le);
    }
  }
}
