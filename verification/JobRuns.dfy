/** Any number of clients of the agent service, interleaving loads, computations and saves over
    one store of jobs (packages/agent-service/src/service.ts, packages/agent-service/src/store.ts). */
module JobRuns {
  import opened Basics
  import opened Jobs
  import opened JobOperations
  import opened JobHistory
  import opened JobStore

  // ----- what has been saved so far

  /** A successful save: by whom, what it replaced, and what it stored. */
  datatype Commit = Commit(client: nat, replaced: Option<Job>, job: Job)

  datatype Log = Start | Then(before: Log, commit: Commit)

  /** The latest version of a job. */
  function Latest(log: Log, id: string): Option<Job> {
    match log
    case Start => None
    case Then(before, c) => if c.job.id == id then Some(c.job) else Latest(before, id)
  }

  predicate IsPrefix(a: Log, b: Log) {
    a == b || (b.Then? && IsPrefix(a, b.before))
  }

  /** Nothing after `a` was saved by `client`. */
  predicate OthersSince(a: Log, b: Log, client: nat) {
    a == b || (b.Then? && b.commit.client != client && OthersSince(a, b.before, client))
  }

  /** Some version of the job was saved after `a`. */
  predicate SavedSince(a: Log, b: Log, id: string) {
    a != b && b.Then? && (b.commit.job.id == id || SavedSince(a, b.before, id))
  }

  predicate InLog(log: Log, j: Job) {
    log.Then? && (log.commit.job == j || InLog(log.before, j))
  }

  /** Every save replaced exactly the latest version of its job by a later one. */
  ghost predicate Chained(log: Log) {
    match log
    case Start => true
    case Then(before, c) =>
      && Chained(before) && Sound(c.job)
      && c.replaced == Latest(before, c.job.id)
      && (c.replaced.Some? ==> c.job.revision > c.replaced.value.revision && Kept(c.replaced.value, c.job))
  }

  // ----- clients and their steps

  /** A client's copy of a job, and the log at the time it was loaded or saved. */
  datatype Snapshot = Snapshot(job: Job, since: Log)

  datatype World = World(store: JobTable, clients: map<nat, Snapshot>, log: Log)

  datatype Event =
    | Load(client: nat, id: string)
    | Create(client: nat, id: string, requestId: Option<string>, incident: Option<Incident>)
    | Run(client: nat, op: Op)

  ghost function Committed(w: World, client: nat, store: JobTable, j: Job): World {
    var log := Then(w.log, Commit(client, if j.id in w.store then Some(w.store[j.id]) else None, j));
    World(store, w.clients[client := Snapshot(j, log)], log)
  }

  /** What the store answers when a computed step is saved. */
  ghost function SaveOutcome(store: JobTable, c: Computed): Result<JobTable, ServiceError> {
    match c
    case Err(e) => Err(e)
    case Ok(Keep(_)) => Ok(store)
    case Ok(Save(next, expected)) => SaveJob(store, next, Some(expected))
  }

  predicate Saves(c: Computed) {
    c.Ok? && c.value.Save?
  }

  ghost function Attempt(w: World, client: nat, c: Computed): World {
    if !Saves(c) || SaveOutcome(w.store, c).Err? then w
    else Committed(w, client, SaveOutcome(w.store, c).value, c.value.job)
  }

  /** Stores a first record; its id is fresh. */
  ghost function Add(w: World, client: nat, j: Job): World {
    if j.id in w.store || SaveJob(w.store, j, None).Err? then w else Committed(w, client, SaveJob(w.store, j, None).value, j)
  }

  ghost function Next(w: World, e: Event): World {
    match e
    case Load(client, id) =>
      if id in w.store then w.(clients := w.clients[client := Snapshot(w.store[id], w.log)]) else w
    case Create(client, id, requestId, incident) =>
      var created := NewJob(id, requestId, incident);
      if created.Ok? then Add(w, client, created.value) else w
    case Run(client, op) =>
      if client in w.clients then Attempt(w, client, Apply(op, w.clients[client].job)) else w
  }

  ghost function After(w: World, events: seq<Event>): World
    decreases |events|
  {
    if events == [] then w else Next(After(w, events[..|events| - 1]), events[|events| - 1])
  }

  const EMPTY: World := World(map[], map[], Start)

  // ----- the invariant

  ghost predicate StoreIsLatest(w: World) {
    && (forall id :: id in w.store ==> Latest(w.log, id) == Some(w.store[id]))
    && (forall id :: Latest(w.log, id).Some? ==> id in w.store)
  }

  ghost predicate SnapshotOk(w: World, client: nat)
    requires client in w.clients
  {
    var s := w.clients[client];
    && IsPrefix(s.since, w.log) && Latest(s.since, s.job.id) == Some(s.job)
    && OthersSince(s.since, w.log, client)
  }

  ghost predicate Inv(w: World) {
    && StoreSound(w.store) && Chained(w.log) && StoreIsLatest(w)
    && forall client :: client in w.clients ==> SnapshotOk(w, client)
  }

  lemma {:induction false} LatestIsSound(log: Log, id: string)
    requires Chained(log)
    ensures Latest(log, id).Some? ==> Latest(log, id).value.id == id && Sound(Latest(log, id).value)
  {
    if log.Start? {
    } else {
      LatestIsSound(log.before, id);
    }
  }

  /** From one point of the log to another a job only changes to later versions, and it changes
      exactly when some version was saved in between. */
  lemma {:induction false} LatestEvolves(a: Log, b: Log, id: string)
    requires IsPrefix(a, b) && Chained(b) && Latest(a, id).Some?
    ensures Latest(b, id).Some? && Later(Latest(a, id).value, Latest(b, id).value)
    ensures SavedSince(a, b, id) <==> Latest(b, id).value.revision > Latest(a, id).value.revision
    decreases b
  {
    if a != b {
      LatestEvolves(a, b.before, id);
      if b.commit.job.id == id {
        var x, y, z := Latest(a, id).value, Latest(b.before, id).value, b.commit.job;
        if x != y {
          KeptTransitive(x, y, z);
        }
      }
    } else {
      NotSavedSinceNow(a, id);
    }
  }

  lemma NotSavedSinceNow(a: Log, id: string)
    ensures !SavedSince(a, a, id)
  {}

  lemma CommitKeepsInv(w: World, client: nat, j: Job, store: JobTable)
    requires Inv(w) && Sound(j) && store == w.store[j.id := j] && StoreSound(store)
    requires j.id in w.store ==> j.revision > w.store[j.id].revision && Kept(w.store[j.id], j)
    ensures Inv(Committed(w, client, store, j))
  {
    var after := Committed(w, client, store, j);
    assert Latest(w.log, j.id) == if j.id in w.store then Some(w.store[j.id]) else None;
    forall other | other in after.clients ensures SnapshotOk(after, other) {
      assert other != client ==> SnapshotOk(w, other);
      CommitKeepsSnapshot(w, client, j, store, other);
    }
  }

  lemma CommitKeepsSnapshot(w: World, client: nat, j: Job, store: JobTable, other: nat)
    requires other == client || (other in w.clients && SnapshotOk(w, other))
    ensures SnapshotOk(Committed(w, client, store, j), other)
  {}

  lemma SnapshotIsEarlier(w: World, client: nat)
    requires Inv(w) && client in w.clients
    ensures var s := w.clients[client];
            && s.job.id in w.store && Sound(s.job) && Later(s.job, w.store[s.job.id])
            && (SavedSince(s.since, w.log, s.job.id) <==> w.store[s.job.id].revision > s.job.revision)
  {
    var s := w.clients[client];
    assert SnapshotOk(w, client);
    LatestEvolves(s.since, w.log, s.job.id);
    PrefixChained(s.since, w.log);
    LatestIsSound(s.since, s.job.id);
  }

  lemma {:induction false} PrefixChained(a: Log, b: Log)
    requires IsPrefix(a, b) && Chained(b)
    ensures Chained(a)
  {
    if a != b {
      PrefixChained(a, b.before);
    }
  }

  /** Saving a step computed from a snapshot succeeds exactly when the snapshot is still the
      stored record, and fails exactly when another client has saved the job since. */
  lemma StepsAreCompareAndSwap(w: World, client: nat, c: Computed)
    requires Inv(w) && client in w.clients && Saves(c) && Follows(w.clients[client].job, c)
    ensures var s := w.clients[client];
            var saved := SaveOutcome(w.store, c);
            && s.job.id in w.store
            && (saved.Ok? <==> w.store[s.job.id] == s.job)
            && (saved.Ok? ==> saved.value == w.store[s.job.id := c.value.job] && Evolves(w.store, saved.value))
            && (saved.Err? <==> SavedSince(s.since, w.log, s.job.id))
            && (saved.Err? ==> saved.error == Conflict && OthersSince(s.since, w.log, client))
  {
    var s := w.clients[client];
    SnapshotIsEarlier(w, client);
    assert SnapshotOk(w, client);
    FollowsMeans(s.job, c);
    SwapAccepted(w.store, s.job, c.value.job);
    if w.store[s.job.id] == s.job {
      ReplacingEvolves(w.store, c.value.job);
    }
  }

  /** Every successful save was computed from exactly the record it replaces, and every refused
      one means that another client has saved the job since the snapshot was taken. */
  lemma SavesAreCompareAndSwap(w: World, client: nat, op: Op)
    requires Inv(w) && client in w.clients && Saves(Apply(op, w.clients[client].job))
    ensures var s := w.clients[client];
            var saved := SaveOutcome(w.store, Apply(op, s.job));
            && s.job.id in w.store
            && (saved.Ok? <==> w.store[s.job.id] == s.job)
            && (saved.Err? <==> SavedSince(s.since, w.log, s.job.id))
            && (saved.Err? ==> saved.error == Conflict && OthersSince(s.since, w.log, client))
  {
    SnapshotIsEarlier(w, client);
    OperationsFollow(op, w.clients[client].job);
    StepsAreCompareAndSwap(w, client, Apply(op, w.clients[client].job));
  }

  lemma LoadKeepsInv(w: World, client: nat, id: string)
    requires Inv(w) && id in w.store
    ensures Inv(Next(w, Load(client, id)))
  {
    LatestIsSound(w.log, id);
    var after := Next(w, Load(client, id));
    forall other | other in after.clients ensures SnapshotOk(after, other) {
      if other != client {
        assert SnapshotOk(w, other);
      }
    }
  }

  lemma AddKeepsInv(w: World, client: nat, j: Job)
    requires Inv(w) && Sound(j)
    ensures Inv(Add(w, client, j)) && Evolves(w.store, Add(w, client, j).store)
  {
    EvolvesReflexive(w.store);
    if j.id !in w.store {
      SavingAFreshJob(w.store, j);
      if SaveJob(w.store, j, None).Ok? {
        CommitKeepsInv(w, client, j, w.store[j.id := j]);
      }
    }
  }

  lemma AttemptKeepsInv(w: World, client: nat, c: Computed)
    requires Inv(w) && client in w.clients && Follows(w.clients[client].job, c)
    ensures Inv(Attempt(w, client, c)) && Evolves(w.store, Attempt(w, client, c).store)
  {
    EvolvesReflexive(w.store);
    if Saves(c) && SaveOutcome(w.store, c).Ok? {
      StepsAreCompareAndSwap(w, client, c);
      FollowsMeans(w.clients[client].job, c);
      CommitKeepsInv(w, client, c.value.job, SaveOutcome(w.store, c).value);
    }
  }

  lemma StepKeepsInv(w: World, e: Event)
    requires Inv(w)
    ensures Inv(Next(w, e)) && Evolves(w.store, Next(w, e).store)
  {
    EvolvesReflexive(w.store);
    match e {
      case Load(client, id) =>
        if id in w.store {
          LoadKeepsInv(w, client, id);
        }
      case Create(client, id, requestId, incident) =>
        NewJobIsSound(id, requestId, incident);
        AddKeepsInv(w, client, NewJob(id, requestId, incident).value);
      case Run(client, op) =>
        if client in w.clients {
          SnapshotIsEarlier(w, client);
          OperationsFollow(op, w.clients[client].job);
          AttemptKeepsInv(w, client, Apply(op, w.clients[client].job));
        }
    }
  }

  /** In every run, whatever the clients do. */
  lemma {:induction false} RunsKeepInv(w: World, events: seq<Event>)
    requires Inv(w)
    ensures Inv(After(w, events)) && Evolves(w.store, After(w, events).store)
    decreases |events|
  {
    if events == [] {
    } else {
      RunsKeepInv(w, events[..|events| - 1]);
      var before := After(w, events[..|events| - 1]);
      StepKeepsInv(before, events[|events| - 1]);
      EvolvesTransitive(w.store, before.store, After(w, events).store);
    }
  }

  /** Every run from the empty store. */
  lemma EveryRun(events: seq<Event>)
    ensures Inv(After(EMPTY, events))
  {
    assert Inv(EMPTY);
    RunsKeepInv(EMPTY, events);
  }

  // ----- what follows for every run

  lemma {:induction false} VersionsIncrease(log: Log, j: Job)
    requires Chained(log) && InLog(log, j)
    ensures Latest(log, j.id).Some? && j.revision <= Latest(log, j.id).value.revision
    ensures j.revision == Latest(log, j.id).value.revision ==> j == Latest(log, j.id).value
    decreases log
  {
    if log.commit.job != j {
      VersionsIncrease(log.before, j);
    }
  }

  /** One revision of a job never names two contents. */
  lemma {:induction false} RevisionsNameContents(log: Log, j: Job, k: Job)
    requires Chained(log) && InLog(log, j) && InLog(log, k)
    requires j.id == k.id && j.revision == k.revision
    ensures j == k
    decreases log
  {
    VersionsIncrease(log, j);
    VersionsIncrease(log, k);
    if InLog(log.before, j) && InLog(log.before, k) {
      RevisionsNameContents(log.before, j, k);
    }
  }

  /** A registered receipt is neither lost nor rebound, in whatever follows. */
  lemma ReceiptsSurvive(w: World, events: seq<Event>, id: string, hash: string, packageId: string)
    requires Inv(w) && id in w.store && Registered(w.store[id], hash, packageId)
    ensures var later := After(w, events).store;
            id in later && Registered(later[id], hash, packageId)
            && forall q :: Registered(later[id], hash, q) ==> q == packageId
  {
    RunsKeepInv(w, events);
    var later := After(w, events).store;
    assert Later(w.store[id], later[id]) && Sound(later[id]);
    KeptReflexive(w.store[id]);
    ReceiptsStayRegistered(w.store[id], later[id], hash, packageId);
  }

  lemma KeptReflexive(j: Job)
    ensures Kept(j, j)
  {}

  /** The transitions are numbered, and each starts where the one before it ended. */
  ghost predicate IsPath(history: seq<Transition>, status: Status) {
    && history != [] && history[0].from.None? && history[|history| - 1].to == status
    && (forall i :: 0 <= i < |history| ==> history[i].sequence == i)
    && forall i :: 1 <= i < |history| ==> history[i].from == Some(history[i - 1].to)
  }

  lemma ValidIsPath(history: seq<Transition>, status: Status)
    requires HistoryValid(history, status)
    ensures IsPath(history, status)
  {
    assert Continues(history, 0);
    forall i | 0 <= i < |history| ensures history[i].sequence == i {
      assert Continues(history, i);
    }
    forall i | 1 <= i < |history| ensures history[i].from == Some(history[i - 1].to) {
      assert Continues(history, i);
    }
  }

  /** Histories are paths in the transition table and only grow, finished jobs keep their status,
      and a plan and what it was made for stay. */
  lemma LifecycleSurvives(w: World, events: seq<Event>, id: string)
    requires Inv(w) && id in w.store
    ensures var now, later := w.store[id], After(w, events).store;
            && id in later
            && FollowsTable(later[id].history) && IsPath(later[id].history, later[id].status)
            && now.history <= later[id].history
            && (IsTerminal(now.status) ==> later[id].status == now.status)
            && (now.plan.Some? ==>
                  later[id].plan == now.plan && later[id].scan == now.scan && later[id].incident == now.incident)
            && (later[id].revision > now.revision || later[id] == now)
  {
    RunsKeepInv(w, events);
    var later := After(w, events).store;
    assert Later(w.store[id], later[id]) && Sound(later[id]);
    ValidIsPath(later[id].history, later[id].status);
  }
}
