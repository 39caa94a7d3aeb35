/**
 * The draw order of a playing frame: the entities sorted ascending by the
 * depth of their floor (`getY`), those of equal depth kept in the order in
 * which they were gathered, as the host's stable array sort leaves them.
 * The entries are paired with their keys, read once before sorting.
 */
module Sorting {
  /** The keys never decrease along s. */
  predicate Ascending<T>(s: seq<(T, real)>)
  {
    forall i, j :: 0 <= i < j < |s| ==> s[i].1 <= s[j].1
  }

  /** The entries of s whose key is k, in the order of s. */
  function WithKey<T>(s: seq<(T, real)>, k: real): seq<(T, real)>
  {
    if s == [] then []
    else WithKey(s[..|s| - 1], k) + if s[|s| - 1].1 == k then [s[|s| - 1]] else []
  }

  /** One step of the insertion sort: x goes after every entry whose key is not above its own. */
  function Insert<T>(s: seq<(T, real)>, x: (T, real)): (r: seq<(T, real)>)
    ensures |r| == |s| + 1
  {
    if s == [] || s[|s| - 1].1 <= x.1 then s + [x]
    else Insert(s[..|s| - 1], x) + [s[|s| - 1]]
  }

  /** The comparator sort of `render`: a stable sort by key. */
  function Sort<T>(s: seq<(T, real)>): (r: seq<(T, real)>)
    ensures |r| == |s|
  {
    if s == [] then [] else Insert(Sort(s[..|s| - 1]), s[|s| - 1])
  }

  /** The first components of a list of pairs. */
  function Firsts<T>(s: seq<(T, real)>): (r: seq<T>)
    ensures |r| == |s| && forall i :: 0 <= i < |s| ==> r[i] == s[i].0
  {
    seq(|s|, i requires 0 <= i < |s| => s[i].0)
  }

  lemma WithKeyAppend<T>(s: seq<(T, real)>, x: (T, real), k: real)
    ensures WithKey(s + [x], k) == WithKey(s, k) + if x.1 == k then [x] else []
  {
    assert (s + [x])[..|s + [x]| - 1] == s;
  }

  /** Inserting leaves every key it passes over above the inserted one, and keeps the order ascending. */
  lemma {:induction false} InsertAscending<T>(s: seq<(T, real)>, x: (T, real))
    requires Ascending(s)
    ensures Ascending(Insert(s, x))
    decreases |s|
  {
    if s == [] || s[|s| - 1].1 <= x.1 {
    } else {
      var init, last := s[..|s| - 1], s[|s| - 1];
      InsertAscending(init, x);
      InsertBounded(init, x, last.1);
    }
  }

  /** Every key of an insertion is a key of the list or the inserted key, so a bound on both bounds it. */
  lemma {:induction false} InsertBounded<T>(s: seq<(T, real)>, x: (T, real), b: real)
    requires forall i :: 0 <= i < |s| ==> s[i].1 <= b
    requires x.1 <= b
    ensures forall i :: 0 <= i < |Insert(s, x)| ==> Insert(s, x)[i].1 <= b
    decreases |s|
  {
    if s == [] || s[|s| - 1].1 <= x.1 {
    } else {
      InsertBounded(s[..|s| - 1], x, b);
    }
  }

  /** Inserting adds exactly one entry. */
  lemma {:induction false} InsertPermutes<T>(s: seq<(T, real)>, x: (T, real))
    ensures multiset(Insert(s, x)) == multiset(s) + multiset{x}
    decreases |s|
  {
    if s == [] || s[|s| - 1].1 <= x.1 {
    } else {
      var init, last := s[..|s| - 1], s[|s| - 1];
      InsertPermutes(init, x);
      assert s == init + [last];
    }
  }

  /** Among entries of one key, the inserted one comes last. */
  lemma {:induction false} InsertStable<T>(s: seq<(T, real)>, x: (T, real), k: real)
    ensures WithKey(Insert(s, x), k) == WithKey(s, k) + if x.1 == k then [x] else []
    decreases |s|
  {
    if s == [] || s[|s| - 1].1 <= x.1 {
      WithKeyAppend(s, x, k);
    } else {
      var init, last := s[..|s| - 1], s[|s| - 1];
      InsertStable(init, x, k);
      WithKeyAppend(Insert(init, x), last, k);
    }
  }

  /** The sort orders by key. */
  lemma {:induction false} SortAscending<T>(s: seq<(T, real)>)
    ensures Ascending(Sort(s))
  {
    if s != [] {
      SortAscending(s[..|s| - 1]);
      InsertAscending(Sort(s[..|s| - 1]), s[|s| - 1]);
    }
  }

  /** The sort only rearranges. */
  lemma {:induction false} SortPermutes<T>(s: seq<(T, real)>)
    ensures multiset(Sort(s)) == multiset(s)
  {
    if s != [] {
      SortPermutes(s[..|s| - 1]);
      InsertPermutes(Sort(s[..|s| - 1]), s[|s| - 1]);
      assert s == s[..|s| - 1] + [s[|s| - 1]];
    }
  }

  /** The sort is stable: the entries of each key keep their order. */
  lemma {:induction false} SortStable<T>(s: seq<(T, real)>, k: real)
    ensures WithKey(Sort(s), k) == WithKey(s, k)
  {
    if s != [] {
      SortStable(s[..|s| - 1], k);
      InsertStable(Sort(s[..|s| - 1]), s[|s| - 1], k);
    }
  }

  /** An entry with key k shows among the entries of key k. */
  lemma {:induction false} WithKeyHas<T>(s: seq<(T, real)>, i: nat)
    requires i < |s|
    ensures s[i] in WithKey(s, s[i].1)
    decreases |s|
  {
    if i < |s| - 1 {
      WithKeyHas(s[..|s| - 1], i);
    }
  }

  /** Every entry of key k is an entry of s. */
  lemma {:induction false} WithKeyFrom<T>(s: seq<(T, real)>, k: real, x: (T, real))
    requires x in WithKey(s, k)
    ensures x in s && x.1 == k
    decreases |s|
  {
    if x !in WithKey(s[..|s| - 1], k) {
      assert x == s[|s| - 1];
    } else {
      WithKeyFrom(s[..|s| - 1], k, x);
    }
  }

  /**
   * The sorted order is the only one of its kind: any ascending arrangement
   * with the same entries, in the same order, under every key is it. So the
   * result does not depend on how the stable sort is carried out.
   */
  lemma SortUnique<T>(s: seq<(T, real)>, r: seq<(T, real)>)
    requires Ascending(r)
    requires forall k :: WithKey(r, k) == WithKey(s, k)
    ensures r == Sort(s)
  {
    SortAscending(s);
    forall k
      ensures WithKey(r, k) == WithKey(Sort(s), k)
    {
      SortStable(s, k);
    }
    SameArrangement(r, Sort(s));
  }

  /** The last entry of an ascending list has the largest key. */
  lemma LastIsLargest<T>(s: seq<(T, real)>, x: (T, real))
    requires Ascending(s) && x in s
    ensures x.1 <= s[|s| - 1].1
  {
    var i :| 0 <= i < |s| && s[i] == x;
    if i < |s| - 1 {
      assert s[i].1 <= s[|s| - 1].1;
    }
  }

  /** Dropping the last entry drops it from the entries of its key and from no other. */
  lemma WithKeyDropLast<T>(s: seq<(T, real)>, k: real)
    requires s != []
    ensures WithKey(s, k) == WithKey(s[..|s| - 1], k) + if s[|s| - 1].1 == k then [s[|s| - 1]] else []
  {
  }

  lemma SplitLast<T>(s: seq<T>)
    requires s != []
    ensures s == s[..|s| - 1] + [s[|s| - 1]]
  {
  }

  /** Lists with the same entries under key k, and the same last entry, keep that after dropping it. */
  lemma DropLastSame<T>(a: seq<(T, real)>, b: seq<(T, real)>, k: real)
    requires a != [] && b != [] && a[|a| - 1] == b[|b| - 1]
    requires WithKey(a, k) == WithKey(b, k)
    ensures WithKey(a[..|a| - 1], k) == WithKey(b[..|b| - 1], k)
  {
    WithKeyDropLast(a, k);
    WithKeyDropLast(b, k);
    var last := a[|a| - 1];
    CancelLast(WithKey(a[..|a| - 1], k), WithKey(b[..|b| - 1], k), if last.1 == k then [last] else []);
  }

  lemma CancelLast<T>(x: seq<T>, y: seq<T>, e: seq<T>)
    requires x + e == y + e
    ensures x == y
  {
    assert |x| == |y|;
    assert x == (x + e)[..|x|];
    assert y == (y + e)[..|y|];
  }

  /** The entry x of a shows, under its key, in b; so b's last key is at least x's. */
  lemma KeyBelowLast<T>(a: seq<(T, real)>, b: seq<(T, real)>, i: nat)
    requires i < |a| && b != [] && Ascending(b)
    requires WithKey(a, a[i].1) == WithKey(b, a[i].1)
    ensures a[i].1 <= b[|b| - 1].1
  {
    WithKeyHas(a, i);
    WithKeyFrom(b, a[i].1, a[i]);
    LastIsLargest(b, a[i]);
  }

  /**
   * Two ascending lists that have the same entries under the key of either
   * one's last entry end with the same entry.
   */
  lemma SameLast<T>(a: seq<(T, real)>, b: seq<(T, real)>)
    requires a != [] && b != [] && Ascending(a) && Ascending(b)
    requires WithKey(a, a[|a| - 1].1) == WithKey(b, a[|a| - 1].1)
    requires WithKey(a, b[|b| - 1].1) == WithKey(b, b[|b| - 1].1)
    ensures a[|a| - 1] == b[|b| - 1]
  {
    var x, y := a[|a| - 1], b[|b| - 1];
    KeyBelowLast(a, b, |a| - 1);
    KeyBelowLast(b, a, |b| - 1);
    assert x.1 == y.1;
    LastUnderKey(a);
    LastUnderKey(b);
    var w := WithKey(a, x.1);
    assert w == WithKey(b, y.1);
  }

  /** The last entry of a list is the last of the entries under its key. */
  lemma LastUnderKey<T>(s: seq<(T, real)>)
    requires s != []
    ensures WithKey(s, s[|s| - 1].1) != []
    ensures var w := WithKey(s, s[|s| - 1].1); w[|w| - 1] == s[|s| - 1]
  {
    WithKeyDropLast(s, s[|s| - 1].1);
  }

  /** Two ascending lists with the same entries under every key are equal. */
  lemma {:induction false} SameArrangement<T>(a: seq<(T, real)>, b: seq<(T, real)>)
    requires Ascending(a) && Ascending(b)
    requires forall k :: WithKey(a, k) == WithKey(b, k)
    ensures a == b
    decreases |a|
  {
    if a == [] && b != [] {
      LastUnderKey(b);
      assert false;
    } else if a != [] && b == [] {
      LastUnderKey(a);
      assert false;
    } else if a != [] {
      assert WithKey(a, a[|a| - 1].1) == WithKey(b, a[|a| - 1].1);
      assert WithKey(a, b[|b| - 1].1) == WithKey(b, b[|b| - 1].1);
      SameLast(a, b);
      var a', b' := a[..|a| - 1], b[..|b| - 1];
      forall k
        ensures WithKey(a', k) == WithKey(b', k)
      {
        DropLastSame(a, b, k);
      }
      SameArrangement(a', b');
      SplitLast(a);
      SplitLast(b);
    }
  }
}
