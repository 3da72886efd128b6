/**
 * The shapes of the SQL queries the pages run, over tables given as sequences
 * of rows: `WHERE` as a filter in table order, `COUNT(*)`, `COALESCE(SUM(…), 0)`,
 * and `ORDER BY … DESC LIMIT n` through the stable sort of module Sorting.
 */
module Query {
  import opened Strings
  import Sorting

  /** `WHERE p`: the rows that satisfy `p`, in table order. */
  function Where<T>(rows: seq<T>, p: T -> bool): (r: seq<T>)
    ensures |r| <= |rows|
    ensures forall i :: 0 <= i < |r| ==> p(r[i])
    ensures forall i :: 0 <= i < |rows| && p(rows[i]) ==> rows[i] in r
    ensures multiset(r) <= multiset(rows)
    decreases |rows|
  {
    if rows == [] then []
    else
      var rest := Where(rows[1..], p);
      assert rows == [rows[0]] + rows[1..];
      if p(rows[0]) then [rows[0]] + rest else rest
  }

  /** Filtering a concatenation filters each part. */
  lemma {:induction false} WhereAppend<T>(a: seq<T>, b: seq<T>, p: T -> bool)
    ensures Where(a + b, p) == Where(a, p) + Where(b, p)
    decreases |a|
  {
    if a == [] {
      assert a + b == b;
    } else {
      var ab := a + b;
      assert ab[0] == a[0] && ab[1..] == a[1..] + b;
      WhereAppend(a[1..], b, p);
    }
  }

  /** Rows that fail the condition add nothing, before or after the table. */
  lemma WhereIgnoresOthers<T>(rows: seq<T>, others: seq<T>, p: T -> bool)
    requires forall i :: 0 <= i < |others| ==> !p(others[i])
    ensures Where(others + rows, p) == Where(rows, p)
    ensures Where(rows + others, p) == Where(rows, p)
  {
    WhereAppend(others, rows, p);
    WhereAppend(rows, others, p);
    WhereNone(others, p);
  }

  lemma {:induction false} WhereNone<T>(rows: seq<T>, p: T -> bool)
    requires forall i :: 0 <= i < |rows| ==> !p(rows[i])
    ensures Where(rows, p) == []
    decreases |rows|
  {
    if rows != [] {
      WhereNone(rows[1..], p);
    }
  }

  /** Each row mapped to zero or more results, the results concatenated in table order. */
  function FlatMap<T, U>(rows: seq<T>, f: T -> seq<U>): seq<U>
    decreases |rows|
  {
    if rows == [] then [] else f(rows[0]) + FlatMap(rows[1..], f)
  }

  /** Mapping a concatenation maps each part. */
  lemma {:induction false} FlatMapAppend<T, U>(a: seq<T>, b: seq<T>, f: T -> seq<U>)
    ensures FlatMap(a + b, f) == FlatMap(a, f) + FlatMap(b, f)
    decreases |a|
  {
    if a == [] {
      assert a + b == b;
    } else {
      var ab := a + b;
      assert ab[0] == a[0] && ab[1..] == a[1..] + b;
      FlatMapAppend(a[1..], b, f);
    }
  }

  /** Mapping one more row appends its results. */
  lemma FlatMapSnoc<T, U>(rows: seq<T>, k: nat, f: T -> seq<U>)
    requires k < |rows|
    ensures FlatMap(rows[..k + 1], f) == FlatMap(rows[..k], f) + f(rows[k])
  {
    FlatMapAppend(rows[..k], [rows[k]], f);
    assert rows[..k + 1] == rows[..k] + [rows[k]];
    assert [rows[k]][1..] == [];
  }

  /** When every row satisfies the condition, the filter keeps the whole table. */
  lemma {:induction false} WhereAll<T>(rows: seq<T>, p: T -> bool)
    requires forall i :: 0 <= i < |rows| ==> p(rows[i])
    ensures Where(rows, p) == rows
    decreases |rows|
  {
    if rows != [] {
      WhereAll(rows[1..], p);
      assert rows == [rows[0]] + rows[1..];
    }
  }

  /** A row that fails the condition makes the filtered table strictly shorter. */
  lemma {:induction false} WhereDropsFailing<T>(rows: seq<T>, p: T -> bool, k: nat)
    requires k < |rows| && !p(rows[k])
    ensures |Where(rows, p)| < |rows|
    decreases |rows|
  {
    if k > 0 {
      WhereDropsFailing(rows[1..], p, k - 1);
    }
  }

  /** A stricter condition counts no more rows: `COUNT(*) … WHERE p AND …` is at most `COUNT(*) … WHERE p`. */
  lemma {:induction false} WhereStricter<T>(rows: seq<T>, p: T -> bool, q: T -> bool)
    requires forall i :: 0 <= i < |rows| && q(rows[i]) ==> p(rows[i])
    ensures |Where(rows, q)| <= |Where(rows, p)|
    decreases |rows|
  {
    if rows != [] {
      WhereStricter(rows[1..], p, q);
    }
  }

  /** Either of two conditions. */
  function Either<T>(p: T -> bool, q: T -> bool): T -> bool {
    (x: T) => p(x) || q(x)
  }

  /** Two conditions no row meets together split the count of their union. */
  lemma {:induction false} WhereDisjoint<T>(rows: seq<T>, p: T -> bool, q: T -> bool)
    requires forall i :: 0 <= i < |rows| ==> !(p(rows[i]) && q(rows[i]))
    ensures |Where(rows, p)| + |Where(rows, q)| == |Where(rows, Either(p, q))|
    decreases |rows|
  {
    if rows != [] {
      WhereDisjoint(rows[1..], p, q);
    }
  }

  /** `WHERE p LIMIT 1` fetched once: the first row that satisfies `p`, if any. */
  function First<T>(rows: seq<T>, p: T -> bool): (r: Option<T>)
    ensures r.None? <==> forall i :: 0 <= i < |rows| ==> !p(rows[i])
    ensures r.Some? ==> exists k :: 0 <= k < |rows| && rows[k] == r.value && p(rows[k]) && forall j :: 0 <= j < k ==> !p(rows[j])
    decreases |rows|
  {
    if rows == [] then None
    else if p(rows[0]) then Some(rows[0])
    else
      var r := First(rows[1..], p);
      assert r.Some? ==> exists k :: 0 < k < |rows| && rows[k] == r.value && p(rows[k]) && forall j :: 0 <= j < k ==> !p(rows[j]) by {
        if r.Some? {
          var k :| 0 <= k < |rows| - 1 && rows[1..][k] == r.value && p(rows[1..][k]) && forall j :: 0 <= j < k ==> !p(rows[1..][j]);
          assert forall j :: 0 <= j < k + 1 ==> !p(rows[j]) by {
            forall j | 0 <= j < k + 1 ensures !p(rows[j]) {
              if j > 0 { assert rows[j] == rows[1..][j - 1]; }
            }
          }
        }
      }
      r
  }

  /** The number of rows that satisfy `p`, counted from the first row to the last as a loop over them does. */
  function Count<T>(rows: seq<T>, p: T -> bool): (n: nat)
    ensures n <= |rows|
    decreases |rows|
  {
    if rows == [] then 0
    else Count(rows[..|rows| - 1], p) + (if p(rows[|rows| - 1]) then 1 else 0)
  }

  /** The count is positive exactly when some row satisfies `p`. */
  lemma {:induction false} CountPositive<T>(rows: seq<T>, p: T -> bool)
    ensures Count(rows, p) > 0 <==> exists j :: 0 <= j < |rows| && p(rows[j])
    decreases |rows|
  {
    if rows != [] {
      var init := rows[..|rows| - 1];
      CountPositive(init, p);
      if exists j :: 0 <= j < |rows| && p(rows[j]) {
        var j :| 0 <= j < |rows| && p(rows[j]);
        if j < |rows| - 1 { assert init[j] == rows[j]; }
      }
      if exists j :: 0 <= j < |init| && p(init[j]) {
        var j :| 0 <= j < |init| && p(init[j]);
        assert rows[j] == init[j];
      }
    }
  }

  /** `SUM(amount)` over the rows, with the empty sum 0 as `COALESCE(…, 0)` makes it. */
  function SumOf<T>(rows: seq<T>, amount: T -> real): (total: real)
    ensures rows == [] ==> total == 0.0
    ensures (forall i :: 0 <= i < |rows| ==> amount(rows[i]) >= 0.0) ==> total >= 0.0
    decreases |rows|
  {
    if rows == [] then 0.0 else amount(rows[0]) + SumOf(rows[1..], amount)
  }

  /** The sort key of a nullable column: NULL is the smallest key, below every value, so it comes last under `DESC`. */
  function NullableKey(v: Option<string>): (k: seq<int>)
    ensures v.None? <==> k == []
  {
    match v
    case None => []
    case Some(d) => [0] + Sorting.Codes(d)
  }

  /** Under `DESC` every value comes before NULL. */
  lemma NullLastDescending(d: string)
    ensures Sorting.Precedes(NullableKey(Some(d)), NullableKey(None), true)
  {
  }

  /** `ORDER BY key DESC LIMIT n`. */
  function TopN<T>(rows: seq<T>, key: T -> seq<int>, n: nat): (r: seq<T>)
    ensures |r| == if |rows| <= n then |rows| else n
  {
    Sorting.Limit(Sorting.SortBy(rows, key, true), n)
  }

  /**
   * The first `n` rows in descending key order: no more than `n`, drawn from the
   * table, all of them when there are at most `n`, and in descending order.
   */
  lemma TopNChosen<T>(rows: seq<T>, key: T -> seq<int>, n: nat)
    ensures multiset(TopN(rows, key, n)) <= multiset(rows)
    ensures |rows| <= n ==> multiset(TopN(rows, key, n)) == multiset(rows)
    ensures Sorting.Sorted(TopN(rows, key, n), key, true)
  {
    var s := Sorting.SortBy(rows, key, true);
    var r := TopN(rows, key, n);
    Sorting.SortByPermutes(rows, key, true);
    Sorting.SortBySorted(rows, key, true);
    assert s == r + s[|r|..];
    assert multiset(s) == multiset(r) + multiset(s[|r|..]);
  }

  /** No row that `LIMIT` leaves out has a greater key than a row it keeps. */
  lemma TopNKeepsGreatest<T>(rows: seq<T>, key: T -> seq<int>, n: nat)
    ensures var r := TopN(rows, key, n);
      forall y, i :: y in multiset(rows) - multiset(r) && 0 <= i < |r| ==> !Sorting.Precedes(key(y), key(r[i]), true)
  {
    var s := Sorting.SortBy(rows, key, true);
    var r := TopN(rows, key, n);
    var rest := s[|r|..];
    Sorting.SortByPermutes(rows, key, true);
    Sorting.SortBySorted(rows, key, true);
    assert s == r + rest;
    assert multiset(rows) - multiset(r) == multiset(rest);
    forall y, i | y in multiset(rows) - multiset(r) && 0 <= i < |r|
      ensures !Sorting.Precedes(key(y), key(r[i]), true)
    {
      assert y in rest;
      var j :| 0 <= j < |rest| && rest[j] == y;
      assert s[|r| + j] == y && r[i] == s[i];
    }
  }
}
