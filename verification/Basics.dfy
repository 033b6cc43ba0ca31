/** Small vocabulary shared by every part of the model. */
module Basics {

  datatype Option<+T> = None | Some(value: T)

  datatype Result<+T, +E> = Ok(value: T) | Err(error: E)

  ghost predicate Distinct<T>(s: seq<T>) {
    forall i, j :: 0 <= i < j < |s| ==> s[i] != s[j]
  }

  /** The distinct values of a list, as JavaScript's `new Set(list)`. */
  function ToSet<T>(s: seq<T>): set<T> {
    set x | x in s
  }

  function LowerChar(c: char): char {
    if 'A' <= c <= 'Z' then ((c as int) + 32) as char else c
  }

  /** `toLowerCase` on the ASCII text of addresses and hashes. */
  function Lower(s: string): string {
    seq(|s|, i requires 0 <= i < |s| => LowerChar(s[i]))
  }

  predicate SameText(left: string, right: string) {
    Lower(left) == Lower(right)
  }

  /** The elements of `s` that satisfy `keep`, in order (`Array.prototype.filter`). */
  function Filter<T(!new)>(keep: T -> bool, s: seq<T>): (r: seq<T>)
    ensures forall x :: x in r <==> x in s && keep(x)
    ensures |r| <= |s|
  {
    if s == [] then [] else (if keep(s[0]) then [s[0]] else []) + Filter(keep, s[1..])
  }

  lemma {:induction false} FilterAppend<T(!new)>(keep: T -> bool, s: seq<T>, x: T)
    ensures Filter(keep, s + [x]) == Filter(keep, s) + (if keep(x) then [x] else [])
  {
    if s == [] {
    } else {
      assert (s + [x])[0] == s[0] && (s + [x])[1..] == s[1..] + [x];
      FilterAppend(keep, s[1..], x);
    }
  }

  /** `s.flatMap(f)`. */
  function FlatMap<A, B>(f: A -> seq<B>, s: seq<A>): seq<B> {
    if s == [] then [] else FlatMap(f, s[..|s| - 1]) + f(s[|s| - 1])
  }

  lemma FlatMapStep<A, B>(f: A -> seq<B>, s: seq<A>, i: nat)
    requires i < |s|
    ensures FlatMap(f, s[..i + 1]) == FlatMap(f, s[..i]) + f(s[i])
  {
    assert s[..i + 1][..i] == s[..i];
  }

  lemma {:induction false} FlatMapMember<A, B(!new)>(f: A -> seq<B>, s: seq<A>)
    ensures forall x :: x in FlatMap(f, s) <==> exists i :: 0 <= i < |s| && x in f(s[i])
  {
    if s == [] {
    } else {
      var init := s[..|s| - 1];
      FlatMapMember(f, init);
      assert forall i :: 0 <= i < |init| ==> init[i] == s[i];
    }
  }

  // ----- sizes

  lemma {:induction false} DistinctCount(s: seq<string>)
    requires Distinct(s)
    ensures |ToSet(s)| == |s|
    decreases |s|
  {
    if s == [] {
    } else {
      DistinctCount(s[1..]);
      assert ToSet(s) == {s[0]} + ToSet(s[1..]);
    }
  }

  lemma SubsetSameSize(a: set<string>, b: set<string>)
    requires a <= b && |a| == |b|
    ensures a == b
  {
    if a != b {
      var x :| x in b && x !in a;
      assert a <= b - {x};
      SubsetNotLarger(a, b - {x});
    }
  }

  lemma {:induction false} SubsetNotLarger(a: set<string>, b: set<string>)
    requires a <= b
    ensures |a| <= |b|
  {
    if a == {} {
    } else {
      var x :| x in a;
      SubsetNotLarger(a - {x}, b - {x});
    }
  }
}
