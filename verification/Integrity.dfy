/** Canonical JSON and the integrity hash of a rescue plan (packages/planner/src/integrity.ts). */
module Integrity {
  import opened Basics
  import opened Sorting
  import opened Json

  // ----- canonicalization

  function CompareKeys(collate: Comparison<string>): Comparison<Entry> {
    (left: Entry, right: Entry) => collate(left.key, right.key)
  }

  /** Sorts the entries of every object by key; arrays keep their order. */
  function Canonicalize(collate: Comparison<string>, j: Json): Json
    decreases j
  {
    match j
    case Array(items) =>
      Array(seq(|items|, i requires 0 <= i < |items| => Canonicalize(collate, items[i])))
    case Object(entries) =>
      var sorted := SortBy(CompareKeys(collate), entries);
      SameElements(sorted, entries);
      Object(seq(|sorted|, i requires 0 <= i < |sorted| =>
        assert sorted[i] in entries;
        Entry(sorted[i].key, Canonicalize(collate, sorted[i].child))))
    case _ => j
  }

  // ----- equality up to key order

  /** The same JSON value: equal leaves and arrays, and objects with the same keys and
      similar children, in whatever order the keys were inserted. */
  ghost predicate Similar(a: Json, b: Json)
    decreases a
  {
    match a
    case Array(items) =>
      && b.Array? && |items| == |b.items|
      && forall i :: 0 <= i < |items| ==> Similar(items[i], b.items[i])
    case Object(entries) =>
      && b.Object? && |entries| == |b.entries|
      && forall i :: 0 <= i < |entries| ==> SimilarEntryIn(entries[i], b.entries)
    case _ => a == b
  }

  ghost predicate SimilarEntryIn(e: Entry, entries: seq<Entry>)
    decreases e
  {
    exists k :: 0 <= k < |entries| && entries[k].key == e.key && Similar(e.child, entries[k].child)
  }

  function Keys(entries: seq<Entry>): seq<string> {
    seq(|entries|, i requires 0 <= i < |entries| => entries[i].key)
  }

  lemma {:induction false} DistinctMultiplicity(entries: seq<Entry>, e: Entry)
    requires DistinctKeys(entries)
    ensures multiset(entries)[e] <= 1
    decreases |entries|
  {
    if entries == [] {
    } else {
      assert entries == [entries[0]] + entries[1..];
      DistinctMultiplicity(entries[1..], e);
      if entries[0] == e {
        assert e !in entries[1..];
        assert e !in multiset(entries[1..]);
      }
    }
  }

  lemma TwiceInMultiset(entries: seq<Entry>, i: nat, j: nat)
    requires i < j < |entries| && entries[i] == entries[j]
    ensures multiset(entries)[entries[i]] >= 2
  {
    assert entries == entries[..j] + entries[j..];
    assert entries[..j][i] in multiset(entries[..j]);
    assert entries[j..][0] in multiset(entries[j..]);
  }

  lemma KeyOrderIsTotal(collate: Comparison<string>, entries: seq<Entry>)
    requires IsCollation(collate)
    ensures TotalOn(CompareKeys(collate), entries)
  {
    var cmp := CompareKeys(collate);
    forall x, y | x in entries && y in entries ensures cmp(x, y) <= 0 || cmp(y, x) <= 0 {
      assert collate(x.key, y.key) < 0 <==> collate(y.key, x.key) > 0;
    }
    forall x, y, z | x in entries && y in entries && z in entries && cmp(x, y) <= 0 && cmp(y, z) <= 0
      ensures cmp(x, z) <= 0
    {
      assert collate(x.key, y.key) < 0 || x.key == y.key;
      assert collate(y.key, z.key) < 0 || y.key == z.key;
    }
  }

  lemma ReorderedKeysDistinct(entries: seq<Entry>, sorted: seq<Entry>)
    requires multiset(sorted) == multiset(entries) && DistinctKeys(entries)
    ensures DistinctKeys(sorted)
  {
    SameElements(sorted, entries);
    forall i, j | 0 <= i < j < |sorted| ensures sorted[i].key != sorted[j].key {
      assert sorted[i] in entries && sorted[j] in entries;
      DistinctMultiplicity(entries, sorted[i]);
      if sorted[i] == sorted[j] {
        TwiceInMultiset(sorted, i, j);
      }
    }
  }

  /** Sorting by key lists the keys of an object in strictly increasing order. */
  lemma SortedEntries(collate: Comparison<string>, entries: seq<Entry>)
    requires IsCollation(collate) && DistinctKeys(entries)
    ensures var sorted := SortBy(CompareKeys(collate), entries);
            && StrictlySorted(collate, Keys(sorted)) && DistinctKeys(sorted)
            && forall e :: e in sorted <==> e in entries
  {
    var cmp := CompareKeys(collate);
    var sorted := SortBy(cmp, entries);
    SameElements(sorted, entries);
    KeyOrderIsTotal(collate, entries);
    SortBySorts(cmp, entries);
    SortedPairs(cmp, sorted);
    ReorderedKeysDistinct(entries, sorted);
    forall i, j | 0 <= i < j < |sorted| ensures collate(Keys(sorted)[i], Keys(sorted)[j]) < 0 {
      assert cmp(sorted[i], sorted[j]) <= 0;
      assert collate(sorted[i].key, sorted[j].key) <= 0;
    }
  }

  lemma CanonicalEntries(collate: Comparison<string>, entries: seq<Entry>)
    ensures var sorted := SortBy(CompareKeys(collate), entries);
            var canonical := Canonicalize(collate, Object(entries));
            && canonical.Object? && |canonical.entries| == |sorted| == |entries|
            && forall i :: 0 <= i < |sorted| ==> canonical.entries[i] == Entry(sorted[i].key, Canonicalize(collate, sorted[i].child))
  {}

  lemma CanonicalObjectWellFormed(collate: Comparison<string>, entries: seq<Entry>)
    requires IsCollation(collate) && DistinctKeys(entries)
    requires forall e :: e in entries ==> WellFormed(Canonicalize(collate, e.child))
    ensures WellFormed(Canonicalize(collate, Object(entries)))
  {
    CanonicalEntries(collate, entries);
    SortedEntries(collate, entries);
    var sorted := SortBy(CompareKeys(collate), entries);
    var canonical := Canonicalize(collate, Object(entries)).entries;
    forall i | 0 <= i < |canonical| ensures WellFormed(canonical[i].child) {
      assert sorted[i] in sorted;
    }
  }

  lemma CanonicalObjectSimilar(collate: Comparison<string>, entries: seq<Entry>)
    requires IsCollation(collate) && DistinctKeys(entries)
    requires forall e :: e in entries ==> Similar(e.child, Canonicalize(collate, e.child))
    ensures Similar(Object(entries), Canonicalize(collate, Object(entries)))
  {
    CanonicalEntries(collate, entries);
    SortedEntries(collate, entries);
    var sorted := SortBy(CompareKeys(collate), entries);
    var canonical := Canonicalize(collate, Object(entries)).entries;
    forall i | 0 <= i < |entries| ensures SimilarEntryIn(entries[i], canonical) {
      assert entries[i] in sorted;
      var k :| 0 <= k < |sorted| && sorted[k] == entries[i];
      assert canonical[k].key == entries[i].key;
    }
  }

  /** Canonical trees are well formed, and equal to the original up to key order. */
  lemma {:induction false} CanonicalIsSimilar(collate: Comparison<string>, j: Json)
    requires IsCollation(collate) && WellFormed(j)
    ensures WellFormed(Canonicalize(collate, j)) && Similar(j, Canonicalize(collate, j))
    decreases j
  {
    match j {
      case Array(items) =>
        forall i | 0 <= i < |items|
          ensures WellFormed(Canonicalize(collate, items[i])) && Similar(items[i], Canonicalize(collate, items[i]))
        {
          CanonicalIsSimilar(collate, items[i]);
        }
      case Object(entries) =>
        forall e | e in entries
          ensures WellFormed(Canonicalize(collate, e.child)) && Similar(e.child, Canonicalize(collate, e.child))
        {
          CanonicalIsSimilar(collate, e.child);
        }
        CanonicalObjectWellFormed(collate, entries);
        CanonicalObjectSimilar(collate, entries);
      case _ =>
    }
  }

  lemma KeysFound(a: seq<Entry>, b: seq<Entry>)
    requires DistinctKeys(a) && DistinctKeys(b) && |a| == |b|
    requires forall i :: 0 <= i < |a| ==> Keys(a)[i] in Keys(b)
    ensures forall k :: k in Keys(a) <==> k in Keys(b)
  {
    var ka, kb := (set k | k in Keys(a)), (set k | k in Keys(b));
    DistinctCount(Keys(a));
    DistinctCount(Keys(b));
    assert ka <= kb;
    SubsetSameSize(ka, kb);
    forall k ensures k in Keys(a) <==> k in Keys(b) {
      assert k in ka <==> k in kb;
    }
  }

  /** After sorting, entries at the same place are similar. */
  lemma EntriesMatch(collate: Comparison<string>, a: seq<Entry>, b: seq<Entry>, i: nat)
    requires IsCollation(collate) && DistinctKeys(a) && DistinctKeys(b) && |a| == |b|
    requires forall n :: 0 <= n < |a| ==> SimilarEntryIn(a[n], b)
    requires i < |a|
    ensures var sa, sb := SortBy(CompareKeys(collate), a), SortBy(CompareKeys(collate), b);
            && sa[i].key == sb[i].key && Similar(sa[i].child, sb[i].child)
            && sa[i] in a && sb[i] in b
  {
    SortedEntries(collate, a);
    SortedEntries(collate, b);
    SameSortedKeys(collate, a, b);
    var sa, sb := SortBy(CompareKeys(collate), a), SortBy(CompareKeys(collate), b);
    assert Keys(sa)[i] == Keys(sb)[i];
    assert sa[i] in sa && sb[i] in sb;
    var n :| 0 <= n < |a| && a[n] == sa[i];
    assert SimilarEntryIn(a[n], b);
    var k :| 0 <= k < |b| && b[k].key == a[n].key && Similar(a[n].child, b[k].child);
    assert b[k] in sb;
    var m :| 0 <= m < |sb| && sb[m] == b[k];
    assert sb[m].key == sb[i].key;
  }

  /** Similar trees have the same canonical form: canonicalization ignores key order. */
  lemma {:induction false} SimilarSameCanonical(collate: Comparison<string>, a: Json, b: Json)
    requires IsCollation(collate) && WellFormed(a) && WellFormed(b) && Similar(a, b)
    ensures Canonicalize(collate, a) == Canonicalize(collate, b)
    decreases a
  {
    match a {
      case Array(items) =>
        forall i | 0 <= i < |items| ensures Canonicalize(collate, items[i]) == Canonicalize(collate, b.items[i]) {
          SimilarSameCanonical(collate, items[i], b.items[i]);
        }
      case Object(entries) =>
        var sa, sb := SortBy(CompareKeys(collate), a.entries), SortBy(CompareKeys(collate), b.entries);
        forall i | 0 <= i < |sa|
          ensures sa[i].key == sb[i].key && Canonicalize(collate, sa[i].child) == Canonicalize(collate, sb[i].child)
        {
          EntriesMatch(collate, a.entries, b.entries, i);
          SimilarSameCanonical(collate, sa[i].child, sb[i].child);
        }
      case _ =>
    }
  }

  lemma SameSortedKeys(collate: Comparison<string>, a: seq<Entry>, b: seq<Entry>)
    requires IsCollation(collate) && DistinctKeys(a) && DistinctKeys(b) && |a| == |b|
    requires forall i :: 0 <= i < |a| ==> SimilarEntryIn(a[i], b)
    ensures Keys(SortBy(CompareKeys(collate), a)) == Keys(SortBy(CompareKeys(collate), b))
  {
    SortedEntries(collate, a);
    SortedEntries(collate, b);
    var sa, sb := SortBy(CompareKeys(collate), a), SortBy(CompareKeys(collate), b);
    forall i | 0 <= i < |sa| ensures Keys(sa)[i] in Keys(sb) {
      assert sa[i] in sa;
      var n :| 0 <= n < |a| && a[n] == sa[i];
      assert SimilarEntryIn(a[n], b);
      var k :| 0 <= k < |b| && b[k].key == a[n].key;
      assert b[k] in sb;
      var m :| 0 <= m < |sb| && sb[m] == b[k];
      assert Keys(sb)[m] == Keys(sa)[i];
    }
    KeysFound(sa, sb);
    SortedListingUnique(collate, Keys(sa), Keys(sb));
  }

  lemma SameLength(collate: Comparison<string>, a: seq<Entry>, b: seq<Entry>)
    requires Canonicalize(collate, Object(a)) == Canonicalize(collate, Object(b))
    ensures |a| == |b|
  {
    CanonicalEntries(collate, a);
    CanonicalEntries(collate, b);
  }

  /** Objects with the same canonical form have the same keys, with children of the same canonical form. */
  lemma CounterpartEntry(collate: Comparison<string>, a: seq<Entry>, b: seq<Entry>, i: nat) returns (m: nat)
    requires IsCollation(collate) && DistinctKeys(a) && DistinctKeys(b) && i < |a|
    requires Canonicalize(collate, Object(a)) == Canonicalize(collate, Object(b))
    ensures m < |b| && b[m].key == a[i].key && Canonicalize(collate, a[i].child) == Canonicalize(collate, b[m].child)
  {
    SortedEntries(collate, a);
    SortedEntries(collate, b);
    CanonicalEntries(collate, a);
    CanonicalEntries(collate, b);
    var sa, sb := SortBy(CompareKeys(collate), a), SortBy(CompareKeys(collate), b);
    assert a[i] in sa;
    var k :| 0 <= k < |sa| && sa[k] == a[i];
    assert sb[k] in b;
    m :| 0 <= m < |b| && b[m] == sb[k];
    assert Canonicalize(collate, Object(a)).entries[k] == Canonicalize(collate, Object(b)).entries[k];
  }

  /** Trees with the same canonical form are similar. */
  lemma {:induction false} SameCanonicalSimilar(collate: Comparison<string>, a: Json, b: Json)
    requires IsCollation(collate) && WellFormed(a) && WellFormed(b)
    requires Canonicalize(collate, a) == Canonicalize(collate, b)
    ensures Similar(a, b)
    decreases a
  {
    match a {
      case Array(items) =>
        var ca, cb := Canonicalize(collate, a).items, Canonicalize(collate, b).items;
        forall i | 0 <= i < |items| ensures Similar(items[i], b.items[i]) {
          assert ca[i] == cb[i];
          SameCanonicalSimilar(collate, items[i], b.items[i]);
        }
      case Object(entries) =>
        SameLength(collate, a.entries, b.entries);
        forall i | 0 <= i < |entries| ensures SimilarEntryIn(entries[i], b.entries) {
          var m := CounterpartEntry(collate, a.entries, b.entries, i);
          SameCanonicalSimilar(collate, entries[i].child, b.entries[m].child);
        }
      case _ =>
    }
  }

  lemma CanonicalizeIdempotent(collate: Comparison<string>, j: Json)
    requires IsCollation(collate) && WellFormed(j)
    ensures Canonicalize(collate, Canonicalize(collate, j)) == Canonicalize(collate, j)
  {
    CanonicalIsSimilar(collate, j);
    SimilarSameCanonical(collate, j, Canonicalize(collate, j));
  }

  // ----- the integrity hash

  /** keccak256 as lower-case hexadecimal, taken to be free of collisions. */
  ghost predicate IsHash(hash: string -> string) {
    && (forall x, y :: hash(x) == hash(y) ==> x == y)
    && (forall x :: Lower(hash(x)) == hash(x))
  }

  function ComputeIntegrityHash(collate: Comparison<string>, hash: string -> string, payload: Json): string {
    hash(Stringify(Canonicalize(collate, payload)))
  }

  /** The hash of a payload identifies it up to key order, and nothing else. */
  lemma HashIdentifies(collate: Comparison<string>, hash: string -> string, a: Json, b: Json)
    requires IsCollation(collate) && IsHash(hash) && WellFormed(a) && WellFormed(b)
    ensures ComputeIntegrityHash(collate, hash, a) == ComputeIntegrityHash(collate, hash, b) <==> Similar(a, b)
  {
    if ComputeIntegrityHash(collate, hash, a) == ComputeIntegrityHash(collate, hash, b) {
      CanonicalIsSimilar(collate, a);
      CanonicalIsSimilar(collate, b);
      StringifyInjective(Canonicalize(collate, a), Canonicalize(collate, b));
      SameCanonicalSimilar(collate, a, b);
    }
    if Similar(a, b) {
      SimilarSameCanonical(collate, a, b);
    }
  }

  const HASH_KEY: string := "integrityHash"

  function Find(entries: seq<Entry>, key: string): (r: Option<Json>)
    ensures r.None? <==> key !in Keys(entries)
  {
    if entries == [] then None
    else if entries[0].key == key then
      assert Keys(entries)[0] == key;
      Some(entries[0].child)
    else
      assert Keys(entries) == [entries[0].key] + Keys(entries[1..]);
      Find(entries[1..], key)
  }

  /** `const { integrityHash, ...payload } = plan`. */
  function Payload(plan: Json): Json
    requires plan.Object?
  {
    Object(Filter((e: Entry) => e.key != HASH_KEY, plan.entries))
  }

  /** The text under the hash of a plan object. */
  function HashOf(plan: Json): (h: Option<string>)
    ensures h.Some? ==> plan.Object? && HASH_KEY in Keys(plan.entries)
  {
    match plan
    case Object(entries) => (match Find(entries, HASH_KEY) case Some(Text(h)) => Some(h) case _ => None)
    case _ => None
  }

  /** rescuePlanSchema.safeParse; None when the value is refused. */
  type Parser = Json -> Option<Json>

  /** What the schema parser makes of a value: it only accepts objects with a textual hash, whatever
      the order of their keys, and rebuilds them without changing anything but that order. */
  ghost predicate IsParser(parse: Parser) {
    && (forall x :: parse(x).Some? ==> Rebuilds(x, parse(x).value))
    && (forall x, y :: WellFormed(y) && Similar(x, y) && parse(x).Some? ==> parse(y).Some?)
  }

  ghost predicate Rebuilds(x: Json, y: Json) {
    WellFormed(x) && WellFormed(y) && HashOf(x).Some? && Similar(x, y)
  }

  /** The hash a plan object carries is that of its other fields. */
  predicate CarriesOwnHash(collate: Comparison<string>, hash: string -> string, plan: Json) {
    HashOf(plan).Some? && ComputeIntegrityHash(collate, hash, Payload(plan)) == Lower(HashOf(plan).value)
  }

  predicate VerifyPlanIntegrity(collate: Comparison<string>, hash: string -> string, parse: Parser, value: Json) {
    match parse(value)
    case None => false
    case Some(plan) => CarriesOwnHash(collate, hash, plan)
  }

  function WithHash(payload: Json, h: string): Json
    requires payload.Object?
  {
    Object(payload.entries + [Entry(HASH_KEY, Text(h))])
  }

  /** The planner's last step: the payload together with its hash. */
  function Seal(collate: Comparison<string>, hash: string -> string, payload: Json): Json
    requires payload.Object?
  {
    WithHash(payload, ComputeIntegrityHash(collate, hash, payload))
  }

  lemma {:induction false} FilterKeepsAll(entries: seq<Entry>)
    requires HASH_KEY !in Keys(entries)
    ensures Filter((e: Entry) => e.key != HASH_KEY, entries) == entries
  {
    if entries == [] {
    } else {
      assert Keys(entries)[0] == entries[0].key;
      assert Keys(entries) == [entries[0].key] + Keys(entries[1..]);
      FilterKeepsAll(entries[1..]);
    }
  }

  lemma {:induction false} FindLast(entries: seq<Entry>, x: Json)
    requires HASH_KEY !in Keys(entries)
    ensures Find(entries + [Entry(HASH_KEY, x)], HASH_KEY) == Some(x)
  {
    var all := entries + [Entry(HASH_KEY, x)];
    if entries != [] {
      assert Keys(entries)[0] == entries[0].key;
      assert Keys(entries) == [entries[0].key] + Keys(entries[1..]);
      FindLast(entries[1..], x);
      assert all[0] == entries[0];
      assert all[1..] == entries[1..] + [Entry(HASH_KEY, x)];
    } else {
      assert all[0] == Entry(HASH_KEY, x);
    }
  }

  lemma {:induction false} FilterDistinct(entries: seq<Entry>)
    requires DistinctKeys(entries)
    ensures DistinctKeys(Filter((e: Entry) => e.key != HASH_KEY, entries))
    decreases |entries|
  {
    if entries == [] {
    } else {
      FilterDistinct(entries[1..]);
      var rest := Filter((e: Entry) => e.key != HASH_KEY, entries[1..]);
      forall i | 0 <= i < |rest| ensures rest[i].key != entries[0].key {
        assert rest[i] in entries[1..];
      }
    }
  }

  lemma FilterWellFormed(entries: seq<Entry>)
    requires WellFormed(Object(entries))
    ensures WellFormed(Object(Filter((e: Entry) => e.key != HASH_KEY, entries)))
  {
    FilterDistinct(entries);
    var kept := Filter((e: Entry) => e.key != HASH_KEY, entries);
    forall i | 0 <= i < |kept| ensures WellFormed(kept[i].child) {
      assert kept[i] in entries;
    }
  }

  // ----- parsing only reorders keys

  lemma {:induction false} FilterLength(entries: seq<Entry>)
    requires DistinctKeys(entries)
    ensures |Filter((e: Entry) => e.key != HASH_KEY, entries)| == |entries| - (if HASH_KEY in Keys(entries) then 1 else 0)
    decreases |entries|
  {
    if entries == [] {
    } else {
      assert entries == [entries[0]] + entries[1..];
      assert Keys(entries) == [entries[0].key] + Keys(entries[1..]);
      FilterLength(entries[1..]);
    }
  }

  lemma {:induction false} FindAt(entries: seq<Entry>, k: nat)
    requires DistinctKeys(entries) && k < |entries|
    ensures Find(entries, entries[k].key) == Some(entries[k].child)
    decreases k
  {
    if k == 0 {
    } else {
      FindAt(entries[1..], k - 1);
    }
  }

  /** An entry of one object is found in a similar one. */
  lemma SimilarFind(a: seq<Entry>, b: seq<Entry>, i: nat)
    requires DistinctKeys(a) && DistinctKeys(b) && Similar(Object(a), Object(b)) && i < |a|
    ensures Find(a, a[i].key) == Some(a[i].child)
    ensures Find(b, a[i].key).Some? && Similar(a[i].child, Find(b, a[i].key).value)
  {
    FindAt(a, i);
    assert SimilarEntryIn(a[i], b);
    var k :| 0 <= k < |b| && b[k].key == a[i].key && Similar(a[i].child, b[k].child);
    FindAt(b, k);
  }

  lemma SimilarHash(a: Json, b: Json)
    requires WellFormed(a) && WellFormed(b) && Similar(a, b) && HashOf(a).Some?
    ensures HashOf(b) == HashOf(a)
  {
    var i :| 0 <= i < |a.entries| && Keys(a.entries)[i] == HASH_KEY;
    SimilarFind(a.entries, b.entries, i);
  }

  lemma PayloadEntry(a: seq<Entry>, b: seq<Entry>, e: Entry)
    requires Similar(Object(a), Object(b)) && e in a && e.key != HASH_KEY
    ensures SimilarEntryIn(e, Filter((f: Entry) => f.key != HASH_KEY, b))
  {
    var n :| 0 <= n < |a| && a[n] == e;
    assert SimilarEntryIn(a[n], b);
    var k :| 0 <= k < |b| && b[k].key == e.key && Similar(e.child, b[k].child);
    var kept := Filter((f: Entry) => f.key != HASH_KEY, b);
    assert b[k] in kept;
    var m :| 0 <= m < |kept| && kept[m] == b[k];
  }

  lemma SimilarPayload(a: Json, b: Json)
    requires WellFormed(a) && WellFormed(b) && Similar(a, b) && HashOf(a).Some?
    ensures HashOf(b).Some? && WellFormed(Payload(a)) && WellFormed(Payload(b)) && Similar(Payload(a), Payload(b))
  {
    SimilarHash(a, b);
    FilterLength(a.entries);
    FilterLength(b.entries);
    FilterWellFormed(a.entries);
    FilterWellFormed(b.entries);
    forall e | e in Payload(a).entries ensures SimilarEntryIn(e, Payload(b).entries) {
      PayloadEntry(a.entries, b.entries, e);
    }
  }

  lemma SimilarCarriesHash(collate: Comparison<string>, hash: string -> string, a: Json, b: Json)
    requires IsCollation(collate) && IsHash(hash)
    requires WellFormed(a) && WellFormed(b) && Similar(a, b) && HashOf(a).Some?
    ensures CarriesOwnHash(collate, hash, a) <==> CarriesOwnHash(collate, hash, b)
  {
    SimilarHash(a, b);
    SimilarPayload(a, b);
    HashIdentifies(collate, hash, Payload(a), Payload(b));
  }

  /** Rebuilding the value does not matter: an accepted value verifies exactly when it carries its
      own hash. */
  lemma VerifiedIff(collate: Comparison<string>, hash: string -> string, parse: Parser, value: Json)
    requires IsCollation(collate) && IsHash(hash) && IsParser(parse)
    ensures VerifyPlanIntegrity(collate, hash, parse, value) <==> parse(value).Some? && CarriesOwnHash(collate, hash, value)
  {
    if parse(value).Some? {
      assert Rebuilds(value, parse(value).value);
      SimilarCarriesHash(collate, hash, value, parse(value).value);
    }
  }

  lemma WithHashParts(payload: Json, h: string)
    requires payload.Object? && HASH_KEY !in Keys(payload.entries)
    ensures Payload(WithHash(payload, h)) == payload && HashOf(WithHash(payload, h)) == Some(h)
  {
    FilterKeepsAll(payload.entries);
    FindLast(payload.entries, Text(h));
    FilterAppend((e: Entry) => e.key != HASH_KEY, payload.entries, Entry(HASH_KEY, Text(h)));
  }

  lemma WithHashWellFormed(payload: Json, h: string)
    requires payload.Object? && HASH_KEY !in Keys(payload.entries) && WellFormed(payload)
    ensures WellFormed(WithHash(payload, h))
  {
    var entries := payload.entries;
    assert forall i :: 0 <= i < |entries| ==> Keys(entries)[i] == entries[i].key;
    AppendWellFormed(entries, HASH_KEY, Text(h));
  }

  lemma AppendWellFormed(entries: seq<Entry>, key: string, child: Json)
    requires WellFormed(Object(entries)) && WellFormed(child) && forall i :: 0 <= i < |entries| ==> entries[i].key != key
    ensures WellFormed(Object(entries + [Entry(key, child)]))
  {}

  lemma SealCarriesHash(collate: Comparison<string>, hash: string -> string, payload: Json)
    requires IsHash(hash) && payload.Object? && HASH_KEY !in Keys(payload.entries)
    ensures var sealed := Seal(collate, hash, payload);
            && Payload(sealed) == payload && HashOf(sealed) == Some(ComputeIntegrityHash(collate, hash, payload))
            && CarriesOwnHash(collate, hash, sealed)
  {
    WithHashParts(payload, ComputeIntegrityHash(collate, hash, payload));
  }

  /** What the planner emits is the sealed payload as the schema has rebuilt it. It passes
      verification, which rebuilds it once more, and has lost nothing of the payload. */
  lemma SealedPlansVerify(collate: Comparison<string>, hash: string -> string, parse: Parser, payload: Json)
    requires IsCollation(collate) && IsHash(hash) && IsParser(parse)
    requires payload.Object? && HASH_KEY !in Keys(payload.entries)
    requires parse(Seal(collate, hash, payload)).Some?
    ensures var emitted := parse(Seal(collate, hash, payload)).value;
            && VerifyPlanIntegrity(collate, hash, parse, emitted)
            && HashOf(emitted).Some? && Similar(payload, Payload(emitted))
            && HashOf(emitted).value == ComputeIntegrityHash(collate, hash, payload)
  {
    var sealed := Seal(collate, hash, payload);
    var emitted := parse(sealed).value;
    assert Rebuilds(sealed, emitted);
    SealCarriesHash(collate, hash, payload);
    SimilarHash(sealed, emitted);
    SimilarPayload(sealed, emitted);
    SimilarCarriesHash(collate, hash, sealed, emitted);
    VerifiedIff(collate, hash, parse, emitted);
  }

  /** Next to a plan that verifies, an accepted plan carrying the same hash verifies exactly when
      all its other fields are the same. */
  lemma TamperingIsDetected(collate: Comparison<string>, hash: string -> string, parse: Parser, plan: Json, other: Json)
    requires IsCollation(collate) && IsHash(hash) && IsParser(parse)
    requires VerifyPlanIntegrity(collate, hash, parse, plan) && parse(other).Some?
    ensures HashOf(plan).Some? && HashOf(other).Some?
    ensures SameText(HashOf(plan).value, HashOf(other).value) ==>
              (VerifyPlanIntegrity(collate, hash, parse, other) <==> Similar(Payload(plan), Payload(other)))
  {
    assert Rebuilds(plan, parse(plan).value) && Rebuilds(other, parse(other).value);
    VerifiedIff(collate, hash, parse, plan);
    VerifiedIff(collate, hash, parse, other);
    FilterWellFormed(plan.entries);
    FilterWellFormed(other.entries);
    HashIdentifies(collate, hash, Payload(plan), Payload(other));
  }
}
