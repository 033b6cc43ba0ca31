/** Sorting with a comparison function, as `Array.prototype.sort` does it, and the text
    collation that `localeCompare` is taken to be. */
module Sorting {
  import opened Basics

  /** The sign of the result orders the arguments. */
  type Comparison<!T> = (T, T) -> int

  function Insert<T(!new)>(cmp: Comparison<T>, x: T, s: seq<T>): (r: seq<T>)
    ensures multiset(r) == multiset(s) + multiset{x}
    ensures |r| == |s| + 1
  {
    if s == [] || cmp(x, s[0]) <= 0 then [x] + s
    else
      assert s == [s[0]] + s[1..];
      [s[0]] + Insert(cmp, x, s[1..])
  }

  /** A stable sort. */
  function SortBy<T(!new)>(cmp: Comparison<T>, s: seq<T>): (r: seq<T>)
    ensures multiset(r) == multiset(s)
    ensures |r| == |s|
  {
    if s == [] then []
    else
      assert s == [s[0]] + s[1..];
      Insert(cmp, s[0], SortBy(cmp, s[1..]))
  }

  /** `cmp` orders the elements of `s` totally. */
  ghost predicate TotalOn<T(!new)>(cmp: Comparison<T>, s: seq<T>) {
    && (forall x, y :: x in s && y in s ==> cmp(x, y) <= 0 || cmp(y, x) <= 0)
    && (forall x, y, z :: x in s && y in s && z in s && cmp(x, y) <= 0 && cmp(y, z) <= 0 ==> cmp(x, z) <= 0)
  }

  ghost predicate AtMost<T(!new)>(cmp: Comparison<T>, x: T, s: seq<T>) {
    forall y :: y in s ==> cmp(x, y) <= 0
  }

  ghost predicate Sorted<T(!new)>(cmp: Comparison<T>, s: seq<T>) {
    s == [] || (AtMost(cmp, s[0], s[1..]) && Sorted(cmp, s[1..]))
  }

  lemma SameElements<T>(a: seq<T>, b: seq<T>)
    requires multiset(a) == multiset(b)
    ensures forall x :: x in a <==> x in b
  {
    forall x ensures x in a <==> x in b {
      assert x in a <==> multiset(a)[x] > 0;
      assert x in b <==> multiset(b)[x] > 0;
    }
  }

  lemma AtMostAll<T(!new)>(cmp: Comparison<T>, x: T, s: seq<T>)
    requires TotalOn(cmp, [x] + s) && Sorted(cmp, s) && s != [] && cmp(x, s[0]) <= 0
    ensures AtMost(cmp, x, s)
  {
    var all := [x] + s;
    assert x in all && s[0] in all;
    forall y | y in s ensures cmp(x, y) <= 0 {
      assert y in all;
      assert y == s[0] || y in s[1..];
    }
  }

  lemma {:induction false} InsertSorts<T(!new)>(cmp: Comparison<T>, x: T, s: seq<T>)
    requires TotalOn(cmp, [x] + s) && Sorted(cmp, s)
    ensures Sorted(cmp, Insert(cmp, x, s))
  {
    if s == [] {
    } else if cmp(x, s[0]) <= 0 {
      AtMostAll(cmp, x, s);
    } else {
      var all := [x] + s;
      assert x in all && s[0] in all;
      assert forall y :: y in [x] + s[1..] ==> y in all;
      InsertSorts(cmp, x, s[1..]);
      SameElements(Insert(cmp, x, s[1..]), [x] + s[1..]);
    }
  }

  lemma {:induction false} SortBySorts<T(!new)>(cmp: Comparison<T>, s: seq<T>)
    requires TotalOn(cmp, s)
    ensures Sorted(cmp, SortBy(cmp, s))
  {
    if s == [] {
    } else {
      assert forall y :: y in s[1..] ==> y in s;
      SortBySorts(cmp, s[1..]);
      SameElements(SortBy(cmp, s[1..]), s[1..]);
      assert forall y :: y in [s[0]] + SortBy(cmp, s[1..]) ==> y in s;
      InsertSorts(cmp, s[0], SortBy(cmp, s[1..]));
    }
  }

  lemma {:induction false} SortedPairs<T(!new)>(cmp: Comparison<T>, s: seq<T>)
    requires Sorted(cmp, s)
    ensures forall i, j :: 0 <= i < j < |s| ==> cmp(s[i], s[j]) <= 0
  {
    if s == [] {
    } else {
      SortedPairs(cmp, s[1..]);
      forall i, j | 0 <= i < j < |s| ensures cmp(s[i], s[j]) <= 0 {
        assert s[j] == s[1..][j - 1];
        if i > 0 {
          assert s[i] == s[1..][i - 1];
        }
      }
    }
  }

  /** A total order on texts that calls only identical texts equal. */
  ghost predicate IsCollation(collate: Comparison<string>) {
    && (forall a, b :: collate(a, b) == 0 <==> a == b)
    && (forall a, b :: collate(a, b) < 0 <==> collate(b, a) > 0)
    && (forall a, b, c :: collate(a, b) < 0 && collate(b, c) < 0 ==> collate(a, c) < 0)
  }

  ghost predicate StrictlySorted(collate: Comparison<string>, keys: seq<string>) {
    forall i, j :: 0 <= i < j < |keys| ==> collate(keys[i], keys[j]) < 0
  }

  /** A set of texts has only one sorted listing. */
  lemma {:induction false} SortedListingUnique(collate: Comparison<string>, a: seq<string>, b: seq<string>)
    requires IsCollation(collate)
    requires StrictlySorted(collate, a) && StrictlySorted(collate, b)
    requires forall k :: k in a <==> k in b
    ensures a == b
  {
    assert b != [] ==> b[0] in b;
    if a == [] {
    } else {
      assert a[0] in a && a[0] in b;
      assert b[0] in b && b[0] in a;
      assert a[0] == b[0];
      forall k ensures k in a[1..] <==> k in b[1..] {
        assert k in a <==> k == a[0] || k in a[1..];
        assert k in b <==> k == b[0] || k in b[1..];
      }
      SortedListingUnique(collate, a[1..], b[1..]);
      assert a == [a[0]] + a[1..] && b == [b[0]] + b[1..];
    }
  }
}
