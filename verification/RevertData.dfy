/** The search for EVM revert data in a chain of wrapped errors
    (apps/web/src/lib/evm-revert-data.ts). Error objects live in a heap and may
    refer to each other in cycles through `cause` and `error`. */
module RevertData {
  import opened Basics

  type ObjectId = nat

  /** `Scalar` stands for every JavaScript value that is neither a string nor an
      object: undefined, null, numbers, booleans and functions. */
  datatype Value = Scalar | Text(text: string) | Object(id: ObjectId)

  datatype ErrorObject = ErrorObject(data: Value, cause: Value, error: Value)

  type Heap = map<ObjectId, ErrorObject>

  predicate Allocated(heap: Heap, v: Value) {
    v.Object? ==> v.id in heap
  }

  /** Every reference stored in the heap leads to an allocated object. */
  ghost predicate Closed(heap: Heap) {
    forall id :: id in heap ==> Allocated(heap, heap[id].cause) && Allocated(heap, heap[id].error)
  }

  predicate IsHexDigit(c: char) {
    '0' <= c <= '9' || 'a' <= c <= 'f' || 'A' <= c <= 'F'
  }

  /** The pattern ^0x(?:[0-9a-fA-F]{2})*$ */
  predicate IsRevertData(s: string) {
    |s| >= 2 && s[0] == '0' && s[1] == 'x' && |s| % 2 == 0
    && forall i :: 2 <= i < |s| ==> IsHexDigit(s[i])
  }

  predicate HoldsRevertData(o: ErrorObject) {
    o.data.Text? && IsRevertData(o.data.text)
  }

  // ----- paths through the error graph

  datatype Link = Cause | Error

  type Path = seq<Link>

  /** The value reached from `root` by following `path`. */
  ghost function End(heap: Heap, root: Value, path: Path): Value {
    if path == [] then root else Follow(heap, End(heap, root, path[..|path| - 1]), path[|path| - 1])
  }

  function Follow(heap: Heap, v: Value, link: Link): Value {
    if !v.Object? || v.id !in heap then Scalar
    else if link.Cause? then heap[v.id].cause
    else heap[v.id].error
  }

  /** An object carrying well-formed revert data stands at the end of `path`. */
  ghost predicate Carries(heap: Heap, root: Value, path: Path) {
    var v := End(heap, root, path);
    v.Object? && v.id in heap && HoldsRevertData(heap[v.id])
  }

  /** Numbers the paths: shorter paths first and, among equally long ones, `cause`
      before `error` at the first difference (the binary-heap numbering). */
  ghost function Rank(path: Path): nat {
    if path == [] then 1
    else 2 * Rank(path[..|path| - 1]) + (if path[|path| - 1].Cause? then 0 else 1)
  }

  ghost function Power(n: nat): nat {
    if n == 0 then 1 else 2 * Power(n - 1)
  }

  lemma {:induction false} RankBounds(path: Path)
    ensures Power(|path|) <= Rank(path) < 2 * Power(|path|)
  {
    if path == [] {
    } else {
      RankBounds(path[..|path| - 1]);
    }
  }

  lemma {:induction false} PowerMonotone(m: nat, n: nat)
    requires m <= n
    ensures Power(m) <= Power(n)
  {
    if m < n {
      PowerMonotone(m, n - 1);
    }
  }

  /** A path of no larger rank is no longer: least rank means least distance. */
  lemma RankOrdersByLength(p: Path, q: Path)
    requires Rank(p) <= Rank(q)
    ensures |p| <= |q|
  {
    RankBounds(p);
    RankBounds(q);
    if |q| < |p| {
      PowerMonotone(|q| + 1, |p|);
    }
  }

  lemma {:induction false} RankInjective(p: Path, q: Path)
    requires Rank(p) == Rank(q)
    ensures p == q
  {
    RankOrdersByLength(p, q);
    RankOrdersByLength(q, p);
    if p == [] {
    } else {
      RankInjective(p[..|p| - 1], q[..|q| - 1]);
      assert p == p[..|p| - 1] + [p[|p| - 1]] && q == q[..|q| - 1] + [q[|q| - 1]];
    }
  }

  /** Following the same suffix keeps the order of two paths and, from equal
      values, reaches equal values. */
  lemma {:induction false} SameSuffix(heap: Heap, root: Value, p: Path, q: Path, suffix: Path)
    requires End(heap, root, p) == End(heap, root, q)
    requires Rank(p) < Rank(q)
    ensures End(heap, root, p + suffix) == End(heap, root, q + suffix)
    ensures Rank(p + suffix) < Rank(q + suffix)
  {
    if suffix == [] {
      assert p + suffix == p && q + suffix == q;
    } else {
      var init := suffix[..|suffix| - 1];
      SameSuffix(heap, root, p, q, init);
      OneLinkMore(heap, root, p, suffix);
      OneLinkMore(heap, root, q, suffix);
    }
  }

  lemma OneLinkMore(heap: Heap, root: Value, p: Path, suffix: Path)
    requires suffix != []
    ensures var init, last := suffix[..|suffix| - 1], suffix[|suffix| - 1];
            && End(heap, root, p + suffix) == Follow(heap, End(heap, root, p + init), last)
            && Rank(p + suffix) == 2 * Rank(p + init) + (if last.Cause? then 0 else 1)
  {
    assert (p + suffix)[..|p + suffix| - 1] == p + suffix[..|suffix| - 1];
  }

  lemma {:induction false} PrefixRank(p: Path, suffix: Path)
    ensures Rank(p) <= Rank(p + suffix)
    ensures suffix != [] ==> Rank(p) < Rank(p + suffix)
  {
    if suffix == [] {
      assert p + suffix == p;
    } else {
      var init := suffix[..|suffix| - 1];
      PrefixRank(p, init);
      assert (p + suffix)[..|p + suffix| - 1] == p + init;
      RankBounds(p + init);
    }
  }

  /** The carrying path of least rank. */
  ghost predicate IsFirst(heap: Heap, root: Value, path: Path) {
    Carries(heap, root, path)
    && forall p :: Carries(heap, root, p) ==> Rank(path) <= Rank(p)
  }

  lemma {:induction false} FirstExists(heap: Heap, root: Value, path: Path) returns (first: Path)
    requires Carries(heap, root, path)
    ensures IsFirst(heap, root, first)
    decreases Rank(path)
  {
    if exists p :: Carries(heap, root, p) && Rank(p) < Rank(path) {
      var p :| Carries(heap, root, p) && Rank(p) < Rank(path);
      first := FirstExists(heap, root, p);
    } else {
      first := path;
    }
  }

  // ----- the search

  /** What the queue promises while the search runs: it lists values with the paths
      that lead to them, in increasing rank, none beyond the children of `last`. */
  ghost predicate QueueInOrder(heap: Heap, root: Value, pending: seq<Value>, paths: seq<Path>, last: nat) {
    |paths| == |pending|
    && (forall i :: 0 <= i < |paths| ==>
          pending[i] == End(heap, root, paths[i]) && Allocated(heap, pending[i])
          && last < Rank(paths[i]) <= 2 * last + 1)
    && forall i, j :: 0 <= i < j < |paths| ==> Rank(paths[i]) < Rank(paths[j])
  }

  /** Every visited object was met on a path of rank at most `last`. */
  ghost predicate VisitedInOrder(heap: Heap, root: Value, visited: set<ObjectId>, met: map<ObjectId, Path>, last: nat) {
    visited == met.Keys
    && forall id :: id in met ==> Rank(met[id]) <= last && End(heap, root, met[id]) == Object(id)
  }

  /** The first carrying path, if there is one, still starts in the queue. */
  ghost predicate FirstPending(heap: Heap, root: Value, paths: seq<Path>) {
    forall first :: IsFirst(heap, root, first) ==>
      exists i, t: Path :: 0 <= i < |paths| && paths[i] + t == first
  }

  lemma {:induction false} ScalarStaysScalar(heap: Heap, root: Value, q: Path, t: Path)
    requires !End(heap, root, q).Object?
    requires t != []
    ensures End(heap, root, q + t) == Scalar
  {
    var init := t[..|t| - 1];
    assert (q + t)[..|q + t| - 1] == q + init;
    if init == [] {
      assert q + init == q;
    } else {
      ScalarStaysScalar(heap, root, q, init);
    }
  }

  /** The first carrying path passes neither through a value that is no object nor
      through an object at a place later than the one where it was met. */
  lemma FirstAvoids(heap: Heap, root: Value, met: map<ObjectId, Path>, last: nat, q: Path, t: Path)
    requires VisitedInOrder(heap, root, met.Keys, met, last) && last < Rank(q)
    requires End(heap, root, q).Object? ==> End(heap, root, q).id in met
    ensures !IsFirst(heap, root, q + t)
  {
    var v := End(heap, root, q);
    if v.Object? {
      SameSuffix(heap, root, met[v.id], q, t);
      assert Carries(heap, root, q + t) ==> Carries(heap, root, met[v.id] + t);
    } else if t == [] {
      assert q + t == q;
    } else {
      ScalarStaysScalar(heap, root, q, t);
    }
  }

  lemma ChildPaths(heap: Heap, root: Value, q: Path)
    requires End(heap, root, q).Object? && End(heap, root, q).id in heap
    ensures End(heap, root, q + [Cause]) == heap[End(heap, root, q).id].cause
    ensures End(heap, root, q + [Error]) == heap[End(heap, root, q).id].error
    ensures Rank(q + [Cause]) == 2 * Rank(q) && Rank(q + [Error]) == 2 * Rank(q) + 1
  {}

  /** Dropping the head `q` without children keeps the first path pending, when the
      value at `q` is no object or was met before. */
  lemma DropHead(heap: Heap, root: Value, paths: seq<Path>, met: map<ObjectId, Path>, last: nat)
    requires |paths| > 0 && last < Rank(paths[0])
    requires FirstPending(heap, root, paths)
    requires VisitedInOrder(heap, root, met.Keys, met, last)
    requires End(heap, root, paths[0]).Object? ==> End(heap, root, paths[0]).id in met
    ensures FirstPending(heap, root, paths[1..])
  {
    forall first | IsFirst(heap, root, first)
      ensures exists i, t: Path :: 0 <= i < |paths[1..]| && paths[1..][i] + t == first
    {
      var i, t: Path :| 0 <= i < |paths| && paths[i] + t == first;
      FirstAvoids(heap, root, met, last, paths[0], t);
      assert paths[1..][i - 1] + t == first;
    }
  }

  /** Replacing a head that carries nothing by its two children keeps the first path pending. */
  lemma ExpandHead(heap: Heap, root: Value, paths: seq<Path>)
    requires |paths| > 0
    requires FirstPending(heap, root, paths)
    requires !Carries(heap, root, paths[0])
    ensures FirstPending(heap, root, paths[1..] + [paths[0] + [Cause], paths[0] + [Error]])
  {
    var q := paths[0];
    var rest := paths[1..] + [q + [Cause], q + [Error]];
    forall first | IsFirst(heap, root, first)
      ensures exists i, t: Path :: 0 <= i < |rest| && rest[i] + t == first
    {
      var i, t: Path :| 0 <= i < |paths| && paths[i] + t == first;
      if i == 0 {
        assert t == [] ==> q + t == q;
        var k := |paths| - 1 + (if t[0].Cause? then 0 else 1);
        assert rest[k] == q + [t[0]];
        assert rest[k] + t[1..] == first;
      } else {
        assert rest[i - 1] + t == first;
      }
    }
  }

  /** The head of the queue, when it carries revert data, is the first carrying path. */
  lemma HeadIsFirst(heap: Heap, root: Value, pending: seq<Value>, paths: seq<Path>, last: nat)
    requires |paths| > 0 && QueueInOrder(heap, root, pending, paths, last)
    requires FirstPending(heap, root, paths)
    requires Carries(heap, root, paths[0])
    ensures IsFirst(heap, root, paths[0])
  {
    var first := FirstExists(heap, root, paths[0]);
    var i, t: Path :| 0 <= i < |paths| && paths[i] + t == first;
    PrefixRank(paths[i], t);
    assert Rank(paths[0]) <= Rank(paths[i]);
    RankInjective(first, paths[0]);
  }

  /** The state of the search: `paths` lead to the pending values, `met` to the visited objects,
      and the first carrying path still begins with a pending one. */
  ghost predicate Searching(heap: Heap, root: Value, pending: seq<Value>, paths: seq<Path>,
                            visited: set<ObjectId>, met: map<ObjectId, Path>, last: nat) {
    && QueueInOrder(heap, root, pending, paths, last)
    && VisitedInOrder(heap, root, visited, met, last)
    && FirstPending(heap, root, paths)
    && visited <= heap.Keys
  }

  lemma StartSearch(heap: Heap, root: Value)
    requires Closed(heap) && Allocated(heap, root)
    ensures Searching(heap, root, [root], [[]], {}, map[], 0)
  {
    var paths: seq<Path> := [[]];
    forall first | IsFirst(heap, root, first)
      ensures exists i, t: Path :: 0 <= i < |paths| && paths[i] + t == first
    {
      assert paths[0] + first == first;
    }
  }

  lemma SkipHead(heap: Heap, root: Value, pending: seq<Value>, paths: seq<Path>,
                 visited: set<ObjectId>, met: map<ObjectId, Path>, last: nat)
    requires Closed(heap) && |pending| > 0 && |paths| > 0 && Searching(heap, root, pending, paths, visited, met, last)
    requires pending[0].Object? ==> pending[0].id in visited
    ensures Searching(heap, root, pending[1..], paths[1..], visited, met, Rank(paths[0]))
  {
    DropHead(heap, root, paths, met, last);
  }

  lemma Dequeue(heap: Heap, root: Value, pending: seq<Value>, paths: seq<Path>, last: nat)
    requires |pending| > 0 && |paths| > 0 && QueueInOrder(heap, root, pending, paths, last)
    ensures QueueInOrder(heap, root, pending[1..], paths[1..], Rank(paths[0]))
    ensures forall i :: 1 <= i < |paths| ==> Rank(paths[i]) < 2 * Rank(paths[0])
  {}

  lemma Enqueue(heap: Heap, root: Value, pending: seq<Value>, paths: seq<Path>, last: nat, v: Value, p: Path)
    requires QueueInOrder(heap, root, pending, paths, last)
    requires v == End(heap, root, p) && Allocated(heap, v) && last < Rank(p) <= 2 * last + 1
    requires forall i :: 0 <= i < |paths| ==> Rank(paths[i]) < Rank(p)
    ensures QueueInOrder(heap, root, pending + [v], paths + [p], last)
  {}

  lemma EnterQueue(heap: Heap, root: Value, pending: seq<Value>, paths: seq<Path>, last: nat)
    requires Closed(heap) && |pending| > 0 && |paths| > 0 && QueueInOrder(heap, root, pending, paths, last)
    requires pending[0].Object? && pending[0].id in heap
    ensures var o, q := heap[pending[0].id], paths[0];
            QueueInOrder(heap, root, pending[1..] + [o.cause, o.error], paths[1..] + [q + [Cause], q + [Error]], Rank(q))
  {
    var o, q := heap[pending[0].id], paths[0];
    var values, rest := pending[1..], paths[1..];
    ChildPaths(heap, root, q);
    Dequeue(heap, root, pending, paths, last);
    Enqueue(heap, root, values, rest, Rank(q), o.cause, q + [Cause]);
    Enqueue(heap, root, values + [o.cause], rest + [q + [Cause]], Rank(q), o.error, q + [Error]);
    assert values + [o.cause] + [o.error] == values + [o.cause, o.error];
    assert rest + [q + [Cause]] + [q + [Error]] == rest + [q + [Cause], q + [Error]];
  }

  lemma EnterVisited(heap: Heap, root: Value, visited: set<ObjectId>, met: map<ObjectId, Path>, last: nat, id: ObjectId, q: Path)
    requires VisitedInOrder(heap, root, visited, met, last) && last < Rank(q)
    requires id in heap && End(heap, root, q) == Object(id) && !HoldsRevertData(heap[id])
    ensures VisitedInOrder(heap, root, visited + {id}, met[id := q], Rank(q))
  {}

  lemma EnterHead(heap: Heap, root: Value, pending: seq<Value>, paths: seq<Path>,
                  visited: set<ObjectId>, met: map<ObjectId, Path>, last: nat)
    requires Closed(heap) && |pending| > 0 && |paths| > 0 && Searching(heap, root, pending, paths, visited, met, last)
    requires pending[0].Object? && pending[0].id in heap && pending[0].id !in visited
    requires !HoldsRevertData(heap[pending[0].id])
    ensures var id, q := pending[0].id, paths[0];
            Searching(heap, root, pending[1..] + [heap[id].cause, heap[id].error],
                      paths[1..] + [q + [Cause], q + [Error]], visited + {id}, met[id := q], Rank(q))
  {
    ExpandHead(heap, root, paths);
    EnterQueue(heap, root, pending, paths, last);
    EnterVisited(heap, root, visited, met, last, pending[0].id, paths[0]);
  }

  /** Breadth-first search over `cause` and `error`. It terminates on cyclic graphs; it
      returns nothing exactly when no reachable object carries revert data, and otherwise
      the data at the carrying path of least rank. */
  method FindEvmRevertData(heap: Heap, root: Value) returns (r: Option<string>)
    requires Closed(heap) && Allocated(heap, root)
    ensures r.None? <==> forall p: Path :: !Carries(heap, root, p)
    ensures r.Some? ==> exists p: Path ::
              IsFirst(heap, root, p) && heap[End(heap, root, p).id].data == Text(r.value)
  {
    var pending := [root];
    var visited: set<ObjectId> := {};
    ghost var paths: seq<Path> := [[]];
    ghost var met: map<ObjectId, Path> := map[];
    ghost var last: nat := 0;
    StartSearch(heap, root);
    while |pending| > 0
      invariant |paths| == |pending| && Searching(heap, root, pending, paths, visited, met, last)
      decreases heap.Keys - visited, |pending|
    {
      var current := pending[0];
      ghost var q := paths[0];
      if !current.Object? || current.id in visited {
        SkipHead(heap, root, pending, paths, visited, met, last);
        pending, paths, last := pending[1..], paths[1..], Rank(q);
        continue;
      }
      var candidate := heap[current.id];
      if HoldsRevertData(candidate) {
        HeadIsFirst(heap, root, pending, paths, last);
        return Some(candidate.data.text);
      }
      EnterHead(heap, root, pending, paths, visited, met, last);
      visited, met := visited + {current.id}, met[current.id := q];
      pending, paths := pending[1..] + [candidate.cause, candidate.error], paths[1..] + [q + [Cause], q + [Error]];
      last := Rank(q);
    }
    forall p: Path ensures !Carries(heap, root, p) {
      if Carries(heap, root, p) {
        var first := FirstExists(heap, root, p);
      }
    }
    return None;
  }

  /** What "first" means to a caller: no carrying object is nearer to the root, and the
      path is the only one of its rank. */
  lemma FirstIsNearest(heap: Heap, root: Value, first: Path, other: Path)
    requires IsFirst(heap, root, first) && Carries(heap, root, other)
    ensures |first| <= |other|
    ensures IsFirst(heap, root, other) ==> other == first
  {
    RankOrdersByLength(first, other);
    if IsFirst(heap, root, other) {
      RankInjective(first, other);
    }
  }

  /** At equal distance, `cause` goes before `error` at the first link where two paths part. */
  lemma {:induction false} CauseBeforeError(common: Path, p: Path, q: Path)
    requires |p| == |q|
    ensures Rank(common + [Cause] + p) < Rank(common + [Error] + q)
  {
    if p == [] {
      assert (common + [Cause])[..|common|] == common && (common + [Error])[..|common|] == common;
      assert common + [Cause] + p == common + [Cause] && common + [Error] + q == common + [Error];
    } else {
      var p', q' := p[..|p| - 1], q[..|q| - 1];
      CauseBeforeError(common, p', q');
      assert (common + [Cause] + p)[..|common| + |p|] == common + [Cause] + p';
      assert (common + [Error] + q)[..|common| + |q|] == common + [Error] + q';
    }
  }

  method HasNonEmptyEvmRevertData(heap: Heap, root: Value) returns (r: bool)
    requires Closed(heap) && Allocated(heap, root)
    ensures r <==> exists p: Path ::
              IsFirst(heap, root, p) && |heap[End(heap, root, p).id].data.text| > 2
  {
    var data := FindEvmRevertData(heap, root);
    if data.Some? {
      ghost var p: Path :| IsFirst(heap, root, p) && heap[End(heap, root, p).id].data == Text(data.value);
      forall p': Path | IsFirst(heap, root, p') ensures p' == p {
        FirstIsNearest(heap, root, p, p');
      }
    }
    return data.Some? && |data.value| > 2;
  }
}
