/**
 * A stable sort by a key, ascending or descending. Keys are integer sequences
 * compared lexicographically: a text key is the sequence of its character codes
 * (so a proper prefix sorts first, as JavaScript compares strings), a numeric key
 * is a one-element sequence, and a missing SQL value is the empty sequence (the
 * smallest key, so it sorts last under DESC as MySQL does with NULL).
 *
 * JavaScript's `Array.prototype.sort` is stable, so with a consistent comparator
 * its result is exactly the stable sort defined here.
 */
module Sorting {

  /** A string compared by its character codes, as JavaScript's `<` and `>` and SQL's binary collation do. */
  function Codes(s: string): (k: seq<int>)
    ensures |k| == |s| && forall i :: 0 <= i < |s| ==> k[i] == s[i] as int
  {
    seq(|s|, i requires 0 <= i < |s| => s[i] as int)
  }

  // ---------------------------------------------------------------------------
  // Lexicographic order on keys
  // ---------------------------------------------------------------------------

  predicate LexLess(a: seq<int>, b: seq<int>)
    decreases |a|
  {
    b != [] && (a == [] || a[0] < b[0] || (a[0] == b[0] && LexLess(a[1..], b[1..])))
  }

  lemma {:induction false} LexIrreflexive(a: seq<int>)
    ensures !LexLess(a, a)
    decreases |a|
  {
    if a != [] {
      LexIrreflexive(a[1..]);
    }
  }

  lemma {:induction false} LexTransitive(a: seq<int>, b: seq<int>, c: seq<int>)
    requires LexLess(a, b) && LexLess(b, c)
    ensures LexLess(a, c)
    decreases |a|
  {
    if a != [] && a[0] == b[0] && b[0] == c[0] {
      LexTransitive(a[1..], b[1..], c[1..]);
    }
  }

  lemma {:induction false} LexTotal(a: seq<int>, b: seq<int>)
    ensures a == b || LexLess(a, b) || LexLess(b, a)
    decreases |a|
  {
    if a != [] && b != [] && a[0] == b[0] {
      LexTotal(a[1..], b[1..]);
      if a[1..] == b[1..] {
        assert a == [a[0]] + a[1..] && b == [b[0]] + b[1..];
      }
    }
  }

  /** Under the chosen direction, a key `x` must come strictly before key `y`. */
  predicate Precedes(x: seq<int>, y: seq<int>, desc: bool) {
    if desc then LexLess(y, x) else LexLess(x, y)
  }

  lemma PrecedesIrreflexive(x: seq<int>, desc: bool)
    ensures !Precedes(x, x, desc)
  {
    LexIrreflexive(x);
  }

  lemma PrecedesTransitive(x: seq<int>, y: seq<int>, z: seq<int>, desc: bool)
    requires Precedes(x, y, desc) && Precedes(y, z, desc)
    ensures Precedes(x, z, desc)
  {
    if desc { LexTransitive(z, y, x); } else { LexTransitive(x, y, z); }
  }

  /** The descending order is the ascending order with its arguments swapped. */
  lemma DescendingIsReverse(x: seq<int>, y: seq<int>)
    ensures Precedes(x, y, true) <==> Precedes(y, x, false)
  {
  }

  // ---------------------------------------------------------------------------
  // The sort
  // ---------------------------------------------------------------------------

  ghost predicate Sorted<T>(s: seq<T>, key: T -> seq<int>, desc: bool) {
    forall i, j :: 0 <= i < j < |s| ==> !Precedes(key(s[j]), key(s[i]), desc)
  }

  /** Puts `x` after every element that does not have to follow it. */
  function Insert<T>(x: T, s: seq<T>, key: T -> seq<int>, desc: bool): (r: seq<T>)
    ensures |r| == |s| + 1
    decreases |s|
  {
    if s == [] then [x]
    else if Precedes(key(x), key(s[0]), desc) then [x] + s
    else [s[0]] + Insert(x, s[1..], key, desc)
  }

  /** Stable insertion sort: each element in turn goes after everything before it that it does not precede. */
  function SortBy<T>(s: seq<T>, key: T -> seq<int>, desc: bool): (r: seq<T>)
    ensures |r| == |s|
    decreases |s|
  {
    if s == [] then []
    else Insert(s[|s| - 1], SortBy(s[..|s| - 1], key, desc), key, desc)
  }

  lemma {:induction false} InsertPermutes<T>(x: T, s: seq<T>, key: T -> seq<int>, desc: bool)
    ensures multiset(Insert(x, s, key, desc)) == multiset(s) + multiset{x}
    decreases |s|
  {
    if s == [] {
    } else if Precedes(key(x), key(s[0]), desc) {
      assert multiset([x] + s) == multiset{x} + multiset(s);
    } else {
      var t := Insert(x, s[1..], key, desc);
      InsertPermutes(x, s[1..], key, desc);
      assert s == [s[0]] + s[1..];
      calc {
        multiset(Insert(x, s, key, desc));
        multiset([s[0]] + t);
        multiset{s[0]} + multiset(t);
        multiset{s[0]} + multiset(s[1..]) + multiset{x};
        multiset(s) + multiset{x};
      }
    }
  }

  /** Sorting only reorders: the result is a permutation of the input. */
  lemma {:induction false} SortByPermutes<T>(s: seq<T>, key: T -> seq<int>, desc: bool)
    ensures multiset(SortBy(s, key, desc)) == multiset(s)
    decreases |s|
  {
    if s != [] {
      SortByPermutes(s[..|s| - 1], key, desc);
      InsertPermutes(s[|s| - 1], SortBy(s[..|s| - 1], key, desc), key, desc);
      SplitLast(s);
    }
  }

  /** No element of `t` has to come before an element with key `k`. */
  ghost predicate NoneBefore<T>(t: seq<T>, key: T -> seq<int>, k: seq<int>, desc: bool) {
    forall j :: 0 <= j < |t| ==> !Precedes(key(t[j]), k, desc)
  }

  lemma ConsSorted<T>(a: T, t: seq<T>, key: T -> seq<int>, desc: bool)
    requires Sorted(t, key, desc) && NoneBefore(t, key, key(a), desc)
    ensures Sorted([a] + t, key, desc)
  {
    var r := [a] + t;
    forall i, j | 0 <= i < j < |r| ensures !Precedes(key(r[j]), key(r[i]), desc) {
      if i > 0 {
        assert r[i] == t[i - 1] && r[j] == t[j - 1];
      } else {
        assert r[j] == t[j - 1];
      }
    }
  }

  lemma {:induction false} InsertNoneBefore<T>(x: T, s: seq<T>, key: T -> seq<int>, k: seq<int>, desc: bool)
    requires NoneBefore(s, key, k, desc) && !Precedes(key(x), k, desc)
    ensures NoneBefore(Insert(x, s, key, desc), key, k, desc)
    decreases |s|
  {
    if s != [] && !Precedes(key(x), key(s[0]), desc) {
      InsertNoneBefore(x, s[1..], key, k, desc);
      var t := Insert(x, s[1..], key, desc);
      assert Insert(x, s, key, desc) == [s[0]] + t;
      assert forall j :: 0 <= j < |t| ==> ([s[0]] + t)[j + 1] == t[j];
    }
  }

  lemma {:induction false} InsertSorted<T>(x: T, s: seq<T>, key: T -> seq<int>, desc: bool)
    requires Sorted(s, key, desc)
    ensures Sorted(Insert(x, s, key, desc), key, desc)
    decreases |s|
  {
    if s == [] {
    } else if Precedes(key(x), key(s[0]), desc) {
      forall j | 0 <= j < |s| ensures !Precedes(key(s[j]), key(x), desc) {
        if Precedes(key(s[j]), key(x), desc) {
          PrecedesTransitive(key(s[j]), key(x), key(s[0]), desc);
          if j == 0 { PrecedesIrreflexive(key(s[0]), desc); }
        }
      }
      ConsSorted(x, s, key, desc);
    } else {
      assert Sorted(s[1..], key, desc) by {
        forall i, j | 0 <= i < j < |s[1..]| ensures !Precedes(key(s[1..][j]), key(s[1..][i]), desc) {
          assert s[1..][j] == s[j + 1] && s[1..][i] == s[i + 1];
        }
      }
      assert NoneBefore(s[1..], key, key(s[0]), desc) by {
        forall j | 0 <= j < |s[1..]| ensures !Precedes(key(s[1..][j]), key(s[0]), desc) {
          assert s[1..][j] == s[j + 1];
        }
      }
      InsertSorted(x, s[1..], key, desc);
      InsertNoneBefore(x, s[1..], key, key(s[0]), desc);
      ConsSorted(s[0], Insert(x, s[1..], key, desc), key, desc);
    }
  }

  lemma {:induction false} SortBySorted<T>(s: seq<T>, key: T -> seq<int>, desc: bool)
    ensures Sorted(SortBy(s, key, desc), key, desc)
    decreases |s|
  {
    if s != [] {
      SortBySorted(s[..|s| - 1], key, desc);
      InsertSorted(s[|s| - 1], SortBy(s[..|s| - 1], key, desc), key, desc);
    }
  }

  // ---------------------------------------------------------------------------
  // Stability: elements with equal keys keep their input order
  // ---------------------------------------------------------------------------

  /** The elements of `s` whose key is `k`, in order. */
  function WithKey<T>(s: seq<T>, key: T -> seq<int>, k: seq<int>): (r: seq<T>)
    ensures |r| <= |s|
    decreases |s|
  {
    if s == [] then []
    else (if key(s[0]) == k then [s[0]] else []) + WithKey(s[1..], key, k)
  }

  lemma {:induction false} WithKeyAppend<T>(a: seq<T>, b: seq<T>, key: T -> seq<int>, k: seq<int>)
    ensures WithKey(a + b, key, k) == WithKey(a, key, k) + WithKey(b, key, k)
    decreases |a|
  {
    if a == [] {
      assert a + b == b;
    } else {
      var h := if key(a[0]) == k then [a[0]] else [];
      assert a + b == [a[0]] + (a[1..] + b);
      WithKeyCons(a[0], a[1..] + b, key, k);
      WithKeyAppend(a[1..], b, key, k);
      WithKeyCons(a[0], a[1..], key, k);
      assert [a[0]] + a[1..] == a;
      calc {
        WithKey(a + b, key, k);
        h + WithKey(a[1..] + b, key, k);
        h + (WithKey(a[1..], key, k) + WithKey(b, key, k));
        (h + WithKey(a[1..], key, k)) + WithKey(b, key, k);
        WithKey(a, key, k) + WithKey(b, key, k);
      }
    }
  }

  lemma WithKeyCons<T>(a: T, s: seq<T>, key: T -> seq<int>, k: seq<int>)
    ensures WithKey([a] + s, key, k) == (if key(a) == k then [a] else []) + WithKey(s, key, k)
  {
    assert ([a] + s)[1..] == s;
  }

  lemma {:induction false} WithKeyNone<T>(s: seq<T>, key: T -> seq<int>, k: seq<int>)
    requires forall i :: 0 <= i < |s| ==> key(s[i]) != k
    ensures WithKey(s, key, k) == []
    decreases |s|
  {
    if s != [] {
      WithKeyNone(s[1..], key, k);
    }
  }

  lemma InsertFrontWithKey<T>(x: T, s: seq<T>, key: T -> seq<int>, desc: bool, k: seq<int>)
    requires Sorted(s, key, desc) && s != [] && Precedes(key(x), key(s[0]), desc)
    ensures WithKey([x] + s, key, k) == WithKey(s, key, k) + (if key(x) == k then [x] else [])
  {
    WithKeyCons(x, s, key, k);
    if key(x) == k {
      forall i | 0 <= i < |s| ensures key(s[i]) != k {
        if i == 0 {
          PrecedesIrreflexive(key(s[0]), desc);
        }
      }
      WithKeyNone(s, key, k);
    }
  }

  lemma {:induction false} InsertWithKey<T>(x: T, s: seq<T>, key: T -> seq<int>, desc: bool, k: seq<int>)
    requires Sorted(s, key, desc)
    ensures WithKey(Insert(x, s, key, desc), key, k)
         == WithKey(s, key, k) + (if key(x) == k then [x] else [])
    decreases |s|
  {
    if s == [] {
      WithKeyCons(x, s, key, k);
      assert [x] + s == [x];
    } else if Precedes(key(x), key(s[0]), desc) {
      InsertFrontWithKey(x, s, key, desc, k);
    } else {
      InsertWithKey(x, s[1..], key, desc, k);
      InsertBehindWithKey(x, s, key, desc, k);
    }
  }

  /** The step of `InsertWithKey` where `x` goes behind the head. */
  lemma InsertBehindWithKey<T>(x: T, s: seq<T>, key: T -> seq<int>, desc: bool, k: seq<int>)
    requires s != [] && !Precedes(key(x), key(s[0]), desc)
    requires WithKey(Insert(x, s[1..], key, desc), key, k)
          == WithKey(s[1..], key, k) + (if key(x) == k then [x] else [])
    ensures WithKey(Insert(x, s, key, desc), key, k)
         == WithKey(s, key, k) + (if key(x) == k then [x] else [])
  {
    var t := Insert(x, s[1..], key, desc);
    var a := if key(s[0]) == k then [s[0]] else [];
    var b := if key(x) == k then [x] else [];
    WithKeyCons(s[0], t, key, k);
    WithKeyCons(s[0], s[1..], key, k);
    assert [s[0]] + s[1..] == s;
    calc {
      WithKey(Insert(x, s, key, desc), key, k);
      WithKey([s[0]] + t, key, k);
      a + WithKey(t, key, k);
      a + (WithKey(s[1..], key, k) + b);
      (a + WithKey(s[1..], key, k)) + b;
      WithKey(s, key, k) + b;
    }
  }

  lemma SplitLast<T>(s: seq<T>)
    requires s != []
    ensures s == s[..|s| - 1] + [s[|s| - 1]]
  {
  }

  /** Sorting keeps, for every key, the input order of the elements with that key. */
  lemma {:induction false} SortByStable<T>(s: seq<T>, key: T -> seq<int>, desc: bool, k: seq<int>)
    ensures WithKey(SortBy(s, key, desc), key, k) == WithKey(s, key, k)
    decreases |s|
  {
    if s != [] {
      var init, last := s[..|s| - 1], s[|s| - 1];
      var b := if key(last) == k then [last] else [];
      SortByStable(init, key, desc, k);
      SortBySorted(init, key, desc);
      InsertWithKey(last, SortBy(init, key, desc), key, desc, k);
      SplitLast(s);
      WithKeyAppend(init, [last], key, k);
      WithKeyCons(last, [], key, k);
      assert [last] + [] == [last];
      calc {
        WithKey(SortBy(s, key, desc), key, k);
        WithKey(Insert(last, SortBy(init, key, desc), key, desc), key, k);
        WithKey(SortBy(init, key, desc), key, k) + b;
        WithKey(init, key, k) + b;
        WithKey(init, key, k) + WithKey([last], key, k);
        WithKey(s, key, k);
      }
    }
  }

  lemma {:induction false} InsertAtEnd<T>(x: T, s: seq<T>, key: T -> seq<int>, desc: bool)
    requires forall j :: 0 <= j < |s| ==> !Precedes(key(x), key(s[j]), desc)
    ensures Insert(x, s, key, desc) == s + [x]
    decreases |s|
  {
    if s != [] {
      assert !Precedes(key(x), key(s[0]), desc);
      InsertAtEnd(x, s[1..], key, desc);
      assert [s[0]] + (s[1..] + [x]) == s + [x];
    }
  }

  /** When every element has the same key, sorting leaves the order as it was. */
  lemma {:induction false} ConstantKeyKeepsOrder<T>(s: seq<T>, key: T -> seq<int>, c: seq<int>, desc: bool)
    requires forall x :: key(x) == c
    ensures SortBy(s, key, desc) == s
    decreases |s|
  {
    if s != [] {
      var init := s[..|s| - 1];
      ConstantKeyKeepsOrder(init, key, c, desc);
      PrecedesIrreflexive(c, desc);
      InsertAtEnd(s[|s| - 1], init, key, desc);
      SplitLast(s);
    }
  }

  /** SQL `LIMIT n`: the first `n` elements, or all of them when there are fewer. */
  function Limit<T>(s: seq<T>, n: nat): (r: seq<T>)
    ensures |r| <= n && |r| <= |s|
    ensures |s| <= n ==> r == s
    ensures |s| > n ==> |r| == n
    ensures r == s[..|r|]
  {
    if |s| <= n then s else s[..n]
  }
}
