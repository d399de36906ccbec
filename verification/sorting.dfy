/** `Vec::sort` on rows, modelled as insertion sort under `Ord for Stat`.

    The insertion places a row before the first row it does not exceed; rows
    with equal identities are equal under `PartialEq for Stat`, so their
    relative order is not part of any contract here. */
module Sorting {
  import opened Stats

  predicate Sorted(s: seq<Stat>) {
    forall i, j :: 0 <= i < j < |s| ==> Le(s[i], s[j])
  }

  lemma LeFacts()
    ensures forall a, b :: Le(a, b) || Le(b, a)
    ensures forall a, b, c :: Le(a, b) && Le(b, c) ==> Le(a, c)
  {
    forall a, b {
      LeIsTotalPreorder(a, b, a);
    }
    forall a, b, c {
      LeIsTotalPreorder(a, b, c);
    }
  }

  /** Inserts `x` into a sorted sequence, keeping it sorted. */
  function Insert(x: Stat, s: seq<Stat>): (r: seq<Stat>)
    requires Sorted(s)
    ensures Sorted(r)
    ensures multiset(r) == multiset(s) + multiset{x}
    ensures |r| == |s| + 1
  {
    if |s| == 0 then [x]
    else if Le(x, s[0]) then
      PrependSorted(x, s);
      [x] + s
    else
      LeIsTotalPreorder(x, s[0], x);
      assert s == [s[0]] + s[1..];
      var rest := Insert(x, s[1..]);
      InsertedAfterHead(x, s, rest);
      PrependLeast(s[0], rest);
      [s[0]] + rest
  }

  /** A row no greater than the head of a sorted sequence can go in front. */
  lemma PrependSorted(x: Stat, s: seq<Stat>)
    requires |s| > 0 && Sorted(s) && Le(x, s[0])
    ensures Sorted([x] + s)
  {
    forall j | 0 <= j < |s|
      ensures Le(x, s[j])
    {
      LeIsTotalPreorder(x, s[0], s[j]);
    }
    PrependLeast(x, s);
  }

  /** A row no greater than any element of a sorted sequence can go in front. */
  lemma PrependLeast(y: Stat, s: seq<Stat>)
    requires Sorted(s) && forall j :: 0 <= j < |s| ==> Le(y, s[j])
    ensures Sorted([y] + s)
  {
    var r := [y] + s;
    forall i, j | 0 <= i < j < |r|
      ensures Le(r[i], r[j])
    {
      assert r[j] == s[j - 1];
      if i > 0 {
        assert r[i] == s[i - 1];
      }
    }
  }

  /** Every element of `rest` is `x` or an element of the tail of `s`, so the
      head of `s` precedes all of them when it precedes `x`. */
  lemma InsertedAfterHead(x: Stat, s: seq<Stat>, rest: seq<Stat>)
    requires |s| > 0 && Sorted(s) && Le(s[0], x)
    requires multiset(rest) == multiset(s[1..]) + multiset{x}
    ensures forall j :: 0 <= j < |rest| ==> Le(s[0], rest[j])
  {
    forall j | 0 <= j < |rest|
      ensures Le(s[0], rest[j])
    {
      assert rest[j] in multiset(rest);
      if rest[j] != x {
        assert rest[j] in multiset(s[1..]);
        assert rest[j] in s[1..];
        var k :| 0 <= k < |s[1..]| && s[1..][k] == rest[j];
        assert s[k + 1] == rest[j];
      }
    }
  }

  /** `v.sort()`: a sorted permutation of its input. */
  function SortStats(s: seq<Stat>): (r: seq<Stat>)
    ensures Sorted(r)
    ensures multiset(r) == multiset(s)
    ensures |r| == |s|
  {
    if |s| == 0 then []
    else
      assert s == [s[0]] + s[1..];
      Insert(s[0], SortStats(s[1..]))
  }

  /** Sorting an already sorted sequence returns it unchanged. */
  lemma {:induction false} SortStatsOfSorted(s: seq<Stat>)
    requires Sorted(s)
    ensures SortStats(s) == s
  {
    if |s| > 0 {
      SortStatsOfSorted(s[1..]);
      assert s == [s[0]] + s[1..];
    }
  }
}
