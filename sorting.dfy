/** `Array.prototype.sort` with a comparator: a stable sort (as ECMAScript 2019 requires),
    modelled as insertion sort. `le(a, b)` holds when the comparator allows `a` before `b`,
    i.e. when `compare(a, b) <= 0`. */
module Sorting {

  ghost predicate TotalPreorder<T(!new)>(le: (T, T) -> bool) {
    && (forall x, y :: le(x, y) || le(y, x))
    && (forall x, y, z :: le(x, y) && le(y, z) ==> le(x, z))
  }

  /** Adjacent elements are in order. */
  predicate Sorted<T>(s: seq<T>, le: (T, T) -> bool) {
    forall i :: 0 <= i < |s| - 1 ==> le(s[i], s[i + 1])
  }

  /** The elements of `s` that the comparator calls equal to `x` (compare(x, y) == 0), in order. */
  function Peers<T>(s: seq<T>, le: (T, T) -> bool, x: T): seq<T> {
    if s == [] then []
    else (if le(x, s[0]) && le(s[0], x) then [s[0]] else []) + Peers(s[1..], le, x)
  }

  /** Puts `x` in front of the first element it may precede. */
  function Insert<T>(x: T, t: seq<T>, le: (T, T) -> bool): (r: seq<T>)
    ensures |r| == |t| + 1
    ensures multiset(r) == multiset(t) + multiset{x}
    ensures r[0] == x || (t != [] && r[0] == t[0])
  {
    if t == [] then [x]
    else if le(x, t[0]) then [x] + t
    else
      assert t == [t[0]] + t[1..];
      [t[0]] + Insert(x, t[1..], le)
  }

  function Sort<T>(s: seq<T>, le: (T, T) -> bool): (r: seq<T>)
    ensures |r| == |s|
    ensures multiset(r) == multiset(s)
  {
    if s == [] then []
    else
      assert s == [s[0]] + s[1..];
      Insert(s[0], Sort(s[1..], le), le)
  }

  lemma {:induction false} InsertSorted<T(!new)>(x: T, t: seq<T>, le: (T, T) -> bool)
    requires TotalPreorder(le) && Sorted(t, le)
    ensures Sorted(Insert(x, t, le), le)
  {
    if t != [] && !le(x, t[0]) {
      InsertSorted(x, t[1..], le);
      var r := Insert(x, t[1..], le);
      assert le(t[0], x);
      assert |t| > 1 ==> le(t[0], t[1]);
    }
  }

  /** The sort's output is in comparator order. */
  lemma {:induction false} SortSorted<T(!new)>(s: seq<T>, le: (T, T) -> bool)
    requires TotalPreorder(le)
    ensures Sorted(Sort(s, le), le)
  {
    if s != [] {
      SortSorted(s[1..], le);
      InsertSorted(s[0], Sort(s[1..], le), le);
    }
  }

  /** The peers of `x` in `[a] + t`. */
  lemma PeersCons<T>(a: T, t: seq<T>, le: (T, T) -> bool, x: T)
    ensures Peers([a] + t, le, x) == (if le(x, a) && le(a, x) then [a] else []) + Peers(t, le, x)
  {
    assert ([a] + t)[0] == a && ([a] + t)[1..] == t;
  }

  lemma SortedTail<T>(t: seq<T>, le: (T, T) -> bool)
    requires t != [] && Sorted(t, le)
    ensures Sorted(t[1..], le)
  {
    assert forall i :: 0 <= i < |t| - 1 ==> t[1..][i] == t[i + 1];
  }

  /** `y` and `t0` cannot both be equal to `x` when `y` may not precede `t0`. */
  lemma NotBothPeers<T(!new)>(y: T, t0: T, le: (T, T) -> bool, x: T)
    requires TotalPreorder(le) && !le(y, t0)
    ensures !(le(x, y) && le(y, x) && le(x, t0) && le(t0, x))
  {
    assert le(y, x) && le(x, t0) ==> le(y, t0);
  }

  /** When `y` goes past `t[0]`, the peers of the insertion start with `t[0]`'s contribution. */
  lemma PeersSkipHead<T>(y: T, t: seq<T>, le: (T, T) -> bool, x: T)
    requires t != [] && !le(y, t[0])
    ensures Peers(Insert(y, t, le), le, x)
            == (if le(x, t[0]) && le(t[0], x) then [t[0]] else []) + Peers(Insert(y, t[1..], le), le, x)
  {
    assert Insert(y, t, le) == [t[0]] + Insert(y, t[1..], le);
    PeersCons(t[0], Insert(y, t[1..], le), le, x);
  }

  lemma SwapEmpty<T>(a: seq<T>, b: seq<T>, c: seq<T>)
    requires a == [] || b == []
    ensures a + (b + c) == b + (a + c)
  {
    if a == [] {
      assert a + (b + c) == b + c && a + c == c;
    } else {
      assert b + c == c && b + (a + c) == a + c;
    }
  }

  lemma {:induction false} InsertPeers<T(!new)>(y: T, t: seq<T>, le: (T, T) -> bool, x: T)
    requires TotalPreorder(le) && Sorted(t, le)
    ensures Peers(Insert(y, t, le), le, x) == (if le(x, y) && le(y, x) then [y] else []) + Peers(t, le, x)
  {
    if t == [] {
      PeersCons(y, [], le, x);
    } else if le(y, t[0]) {
      PeersCons(y, t, le, x);
    } else {
      SortedTail(t, le);
      InsertPeers(y, t[1..], le, x);
      NotBothPeers(y, t[0], le, x);
      PeersSkipHead(y, t, le, x);
      SwapEmpty(if le(x, t[0]) && le(t[0], x) then [t[0]] else [],
                if le(x, y) && le(y, x) then [y] else [], Peers(t[1..], le, x));
    }
  }

  /** Stability: among elements the comparator calls equal, the input order is kept. */
  lemma {:induction false} SortStable<T(!new)>(s: seq<T>, le: (T, T) -> bool, x: T)
    requires TotalPreorder(le)
    ensures Peers(Sort(s, le), le, x) == Peers(s, le, x)
  {
    if s != [] {
      SortStable(s[1..], le, x);
      SortSorted(s[1..], le);
      InsertPeers(s[0], Sort(s[1..], le), le, x);
    }
  }

  /** With a transitive comparator, adjacent order gives order between any two positions. */
  lemma {:induction false} SortedPairwise<T(!new)>(s: seq<T>, le: (T, T) -> bool, i: int, j: int)
    requires TotalPreorder(le) && Sorted(s, le)
    requires 0 <= i < j < |s|
    ensures le(s[i], s[j])
    decreases j - i
  {
    if i + 1 < j {
      SortedPairwise(s, le, i + 1, j);
    }
  }

  /** A comparator that calls every pair equal (JavaScript's `return 0`) leaves the order alone. */
  lemma {:induction false} SortTrivial<T(!new)>(s: seq<T>, le: (T, T) -> bool)
    requires forall a, b :: le(a, b)
    ensures Sort(s, le) == s
  {
    if s != [] {
      SortTrivial(s[1..], le);
      assert s == [s[0]] + s[1..];
    }
  }
}
