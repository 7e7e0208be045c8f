/**
 * Calendar dates as the `date` columns hold them ("YYYY-MM-DD"), their
 * order, and the newest-first sort that `getIncomes`, `getExpenses` and the
 * dashboard's transaction feed apply with the comparator
 * `new Date(b.date).getTime() - new Date(a.date).getTime()`.
 */
module Dates {
  /** A date as written: `month` is 1 for January, as in the string. */
  datatype Date = Date(year: int, month: int, day: int)

  /** `new Date(s).getMonth()`: the 0-based month of a written date. */
  function Month0(d: Date): int {
    d.month - 1
  }

  /** `a` is no later than `b` (the order of `getTime()` on well-formed dates). */
  predicate NoLater(a: Date, b: Date) {
    a.year < b.year ||
    (a.year == b.year && (a.month < b.month || (a.month == b.month && a.day <= b.day)))
  }

  /** Every element is dated no later than every element before it. */
  ghost predicate NewestFirst<T>(s: seq<T>, date: T -> Date) {
    forall i, j :: 0 <= i < j < |s| ==> NoLater(date(s[j]), date(s[i]))
  }

  /** A newest-first sequence stays so with an element in front that is no older than any of it. */
  lemma ConsNewestFirst<T>(h: T, t: seq<T>, date: T -> Date)
    requires NewestFirst(t, date)
    requires forall k :: 0 <= k < |t| ==> NoLater(date(t[k]), date(h))
    ensures NewestFirst([h] + t, date)
  {
    forall i, j | 0 <= i < j < |[h] + t|
      ensures NoLater(date(([h] + t)[j]), date(([h] + t)[i]))
    {
      if i > 0 {
        assert ([h] + t)[i] == t[i - 1];
      }
      assert ([h] + t)[j] == t[j - 1];
    }
  }

  /**
   * Inserting `x`, which is older than the head of `t`, into the tail of
   * `t` yields elements that are all no newer than that head.
   */
  lemma InsertBelowHead<T>(x: T, t: seq<T>, rest: seq<T>, date: T -> Date)
    requires t != [] && NewestFirst(t, date) && !NoLater(date(t[0]), date(x))
    requires multiset(rest) == multiset(t[1..]) + multiset{x}
    ensures forall k :: 0 <= k < |rest| ==> NoLater(date(rest[k]), date(t[0]))
  {
    forall k | 0 <= k < |rest|
      ensures NoLater(date(rest[k]), date(t[0]))
    {
      assert rest[k] in multiset(rest);
      if rest[k] != x {
        assert rest[k] in t[1..];
        var m :| 0 <= m < |t[1..]| && t[1..][m] == rest[k];
        assert t[m + 1] == rest[k];
      }
    }
  }

  /**
   * One step of a stable insertion sort: `x`, which came before every element
   * of `t` in the input, goes in front of the first element no newer than it.
   */
  function InsertNewestFirst<T>(x: T, t: seq<T>, date: T -> Date): (r: seq<T>)
    requires NewestFirst(t, date)
    ensures multiset(r) == multiset(t) + multiset{x}
    ensures NewestFirst(r, date)
  {
    if t == [] || NoLater(date(t[0]), date(x)) then
      ConsNewestFirst(x, t, date);
      [x] + t
    else
      assert NewestFirst(t[1..], date);
      var rest := InsertNewestFirst(x, t[1..], date);
      assert t == [t[0]] + t[1..];
      InsertBelowHead(x, t, rest, date);
      ConsNewestFirst(t[0], rest, date);
      [t[0]] + rest
  }

  /**
   * `s.sort((a, b) => date(b) - date(a))`: a stable sort, newest first
   * (ECMAScript has required `Array.prototype.sort` to be stable since 2019).
   */
  function SortNewestFirst<T(!new)>(s: seq<T>, date: T -> Date): (r: seq<T>)
    ensures multiset(r) == multiset(s)
    ensures |r| == |s|
    ensures forall x :: x in r <==> x in s
    ensures NewestFirst(r, date)
  {
    if s == [] then []
    else
      assert s == [s[0]] + s[1..];
      var r := InsertNewestFirst(s[0], SortNewestFirst(s[1..], date), date);
      assert forall x :: x in r <==> x in s by {
        forall x ensures x in r <==> x in s {
          assert x in r <==> x in multiset(r);
          assert x in s <==> x in multiset(s);
        }
      }
      r
  }

  /** Two elements come out newest first, and in input order when neither is newer. */
  lemma SortTwo<T(!new)>(a: T, b: T, date: T -> Date)
    ensures SortNewestFirst([a, b], date) == if NoLater(date(b), date(a)) then [a, b] else [b, a]
  {
    assert [a, b][1..] == [b] && [b][1..] == [];
    assert SortNewestFirst([b], date) == [b];
    if !NoLater(date(b), date(a)) {
      assert [b][1..] == [];
    }
  }

  /**
   * Cutting a newest-first sequence after `n` entries drops only entries
   * dated no later than every entry kept.
   */
  lemma NewestFirstPrefix<T>(s: seq<T>, n: nat, date: T -> Date)
    requires NewestFirst(s, date) && n <= |s|
    ensures forall y, x :: y in multiset(s) - multiset(s[..n]) && x in s[..n] ==> NoLater(date(y), date(x))
  {
    assert s == s[..n] + s[n..];
    assert multiset(s) - multiset(s[..n]) == multiset(s[n..]);
    forall y, x | y in multiset(s) - multiset(s[..n]) && x in s[..n]
      ensures NoLater(date(y), date(x))
    {
      assert y in s[n..];
      var k :| 0 <= k < |s| - n && s[n..][k] == y;
      var i :| 0 <= i < n && s[..n][i] == x;
      assert s[n + k] == y && s[i] == x;
    }
  }
}
