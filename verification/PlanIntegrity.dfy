/** What verifyPlanIntegrity says about a plan of the pipeline (packages/planner/src/integrity.ts,
    packages/planner/src/planner.ts:676-693): the planner's own plans pass it, and a hash that has been
    verified belongs to one plan only. */
module PlanIntegrity {
  import opened Basics
  import opened Sorting
  import opened RescueActions
  import opened Json
  import opened Integrity
  import opened PlanJson
  import opened Ordering
  import Planner
  import Simulator
  import LocalProvider
  import Execution
  import LiveSimulation
  import Jobs

  /** What the pipeline takes from its platform; `formats` stands for the schema's rules on single
      fields. */
  datatype Platform = Platform(
    collate: Comparison<string>, hash: string -> string, parse: Parser, spelling: Spelling,
    formats: Simulator.SealedPlan -> bool)

  /** The JSON value of a sealed plan. */
  function Tree(n: Spelling, s: Simulator.SealedPlan): Json {
    WithHash(PayloadTree(n, s.plan), s.integrityHash)
  }

  /** The platform does what it should, and its schema accepts a plan exactly when the fields have
      their formats and the rules that relate fields hold. */
  ghost predicate Sane(e: Platform) {
    && IsCollation(e.collate) && IsHash(e.hash) && IsParser(e.parse) && Faithful(e.spelling)
    && forall s :: e.parse(Tree(e.spelling, s)).Some? <==> e.formats(s) && MeetsPlanSchema(s.plan)
  }

  function PlanHash(e: Platform, p: Plan): string {
    ComputeIntegrityHash(e.collate, e.hash, PayloadTree(e.spelling, p))
  }

  function SealPlan(e: Platform, p: Plan): Simulator.SealedPlan {
    Simulator.SealedPlan(p, PlanHash(e, p))
  }

  /** verifyPlanIntegrity, as the simulator, the wallet and the package builder call it. */
  function Verified(e: Platform): Simulator.SealedPlan -> bool {
    (s: Simulator.SealedPlan) => VerifyPlanIntegrity(e.collate, e.hash, e.parse, Tree(e.spelling, s))
  }

  lemma TreeParts(e: Platform, s: Simulator.SealedPlan)
    requires Faithful(e.spelling)
    ensures Payload(Tree(e.spelling, s)) == PayloadTree(e.spelling, s.plan) && HashOf(Tree(e.spelling, s)) == Some(s.integrityHash)
    ensures WellFormed(PayloadTree(e.spelling, s.plan))
  {
    PayloadWellFormed(e.spelling, s.plan);
    WithHashParts(PayloadTree(e.spelling, s.plan), s.integrityHash);
  }

  /** A plan verifies exactly when its fields have their formats, it obeys the schema, and the hash
      it carries is its own. */
  lemma VerifiedMeans(e: Platform, s: Simulator.SealedPlan)
    requires Sane(e)
    ensures Verified(e)(s) <==> e.formats(s) && MeetsPlanSchema(s.plan) && PlanHash(e, s.plan) == Lower(s.integrityHash)
  {
    TreeParts(e, s);
    VerifiedIff(e.collate, e.hash, e.parse, Tree(e.spelling, s));
  }

  lemma SameHashSamePlan(e: Platform, p: Plan, q: Plan)
    requires Sane(e)
    ensures PlanHash(e, p) == PlanHash(e, q) <==> SpokenPlan(e.spelling, p) == SpokenPlan(e.spelling, q)
  {
    PayloadWellFormed(e.spelling, p);
    PayloadWellFormed(e.spelling, q);
    HashIdentifies(e.collate, e.hash, PayloadTree(e.spelling, p), PayloadTree(e.spelling, q));
    if Similar(PayloadTree(e.spelling, p), PayloadTree(e.spelling, q)) {
      PlanDetermined(e.spelling, p, q);
    }
    if SpokenPlan(e.spelling, p) == SpokenPlan(e.spelling, q) {
      SpokenSameTree(e.spelling, p);
      SpokenSameTree(e.spelling, q);
    }
  }

  /** Two plans that verify carry the same hash exactly when they are the same plan: the same
      actions in the same order, with the same parameters, dependencies, effects and values. */
  lemma VerifiedHashNamesPlan(e: Platform, s: Simulator.SealedPlan, t: Simulator.SealedPlan)
    requires Sane(e) && Verified(e)(s) && Verified(e)(t)
    ensures SameText(s.integrityHash, t.integrityHash) <==> SpokenPlan(e.spelling, s.plan) == SpokenPlan(e.spelling, t.plan)
  {
    VerifiedMeans(e, s);
    VerifiedMeans(e, t);
    SameHashSamePlan(e, s.plan, t.plan);
  }

  lemma SealedVerifies(e: Platform, p: Plan)
    requires Sane(e)
    ensures Verified(e)(SealPlan(e, p)) <==> e.formats(SealPlan(e, p)) && MeetsPlanSchema(p)
  {
    VerifiedMeans(e, SealPlan(e, p));
  }

  /** The sealed plan's value is the one the planner builds, and what the schema makes of it verifies
      again. */
  lemma EmittedVerifies(e: Platform, p: Plan)
    requires Sane(e) && e.formats(SealPlan(e, p)) && MeetsPlanSchema(p)
    ensures var parsed := e.parse(Seal(e.collate, e.hash, PayloadTree(e.spelling, p)));
            && parsed.Some? && VerifyPlanIntegrity(e.collate, e.hash, e.parse, parsed.value)
            && parsed.value.Object? && Similar(PayloadTree(e.spelling, p), Payload(parsed.value))
            && HashOf(parsed.value) == Some(PlanHash(e, p))
  {
    PayloadWellFormed(e.spelling, p);
    assert Seal(e.collate, e.hash, PayloadTree(e.spelling, p)) == Tree(e.spelling, SealPlan(e, p));
    SealedPlansVerify(e.collate, e.hash, e.parse, PayloadTree(e.spelling, p));
  }

  /** The planner's plan, sealed. It is refused only for the format of a field: the rules that
      relate fields hold of every plan the planner builds. */
  method EmitPlan(e: Platform, planner: Planner.DeterministicRescuePlanner, r: Planner.Request, now: string)
    returns (planned: Result<Plan, Planner.PlanError>, sealed: Option<Simulator.SealedPlan>)
    requires Sane(e) && planner.collate == e.collate
    ensures sealed.Some? <==> planned.Ok? && e.formats(SealPlan(e, planned.value))
    ensures sealed.Some? ==> sealed.value == SealPlan(e, planned.value) && Verified(e)(sealed.value)
    ensures planned.Ok? <==> Planner.Plannable(r, planner.trustedAdapters)
    ensures planned.Ok? ==> Planner.IsPlanOf(e.collate, r, planned.value)
  {
    planned := planner.Plan(r, now);
    if planned.Err? {
      return planned, None;
    }
    var candidate := SealPlan(e, planned.value);
    SealedVerifies(e, planned.value);
    VerifiedMeans(e, candidate);
    if e.parse(Tree(e.spelling, candidate)).None? {
      return planned, None;
    }
    return planned, Some(candidate);
  }

  /** The live pipeline from request to simulation: an emitted plan is never turned away by the
      integrity check, and the report is one of this very plan. */
  method PlanAndSimulate(e: Platform, planner: Planner.DeterministicRescuePlanner, r: Planner.Request, now: string,
                         p: LocalProvider.Local, client: nat -> LocalProvider.Answers, clock: Simulator.Clock,
                         providerId: string, resultIds: nat -> string)
    returns (sealed: Option<Simulator.SealedPlan>, report: Option<Jobs.SimulationReport>)
    requires Sane(e) && planner.collate == e.collate
    ensures report.Some? ==> sealed.Some? && LiveSimulation.FromSimulator(sealed.value, report.value)
    ensures report.Some? ==> LiveSimulation.Covers(report.value, sealed.value.plan)
    ensures sealed.Some? ==> Verified(e)(sealed.value)
  {
    var planned;
    planned, sealed := EmitPlan(e, planner, r, now);
    report := None;
    if sealed.Some? {
      var simulated := LiveSimulation.Simulate(Verified(e), sealed.value, p, client, clock, providerId, resultIds);
      assert simulated != Err(Simulator.IntegrityFailed);
      if simulated.Ok? {
        report := Some(simulated.value);
        LiveSimulation.SimulatedReportsCover(sealed.value, simulated.value);
      }
    }
  }

  // ----- what a verified hash protects

  lemma {:induction false} SpokenFound(n: Spelling, actions: seq<RescueAction>, id: string)
    ensures var found := FindAction(actions, id);
            FindAction(SpokenActions(n, actions), id) == if found.Some? then Some(SpokenAction(n, found.value)) else None
  {
    if actions == [] {
    } else {
      assert SpokenActions(n, actions)[1..] == SpokenActions(n, actions[1..]);
      SpokenFound(n, actions[1..], id);
    }
  }

  lemma SpokenTransaction(n: Spelling, a: RescueAction, simulation: Simulator.SimulationResult)
    ensures Execution.TransactionForAction(SpokenAction(n, a), simulation) == Execution.TransactionForAction(a, simulation)
  {}

  /** The transaction for an action depends on its plan only through the plan's words. */
  lemma TransactionOfSpoken(n: Spelling, p: Plan, q: Plan, id: string, simulation: Simulator.SimulationResult)
    requires SpokenPlan(n, p) == SpokenPlan(n, q)
    ensures var a, b := FindAction(p.actions, id), FindAction(q.actions, id);
            && (a.Some? <==> b.Some?)
            && (a.Some? ==> Execution.TransactionForAction(a.value, simulation) == Execution.TransactionForAction(b.value, simulation))
  {
    SpokenFound(n, p.actions, id);
    SpokenFound(n, q.actions, id);
    assert SpokenActions(n, p.actions) == SpokenActions(n, q.actions);
    var a, b := FindAction(p.actions, id), FindAction(q.actions, id);
    if a.Some? && b.Some? {
      SpokenTransaction(n, a.value, simulation);
      SpokenTransaction(n, b.value, simulation);
    }
  }

  /** Whatever plan reaches the wallet under the hash of an emitted one, the wallet prepares from it
      exactly what it would have prepared from the emitted plan. */
  lemma WalletFollowsEmittedPlan(e: Platform, emitted: Simulator.SealedPlan, received: Simulator.SealedPlan,
                                 simulation: Simulator.SimulationResult, now: int)
    requires Sane(e) && Verified(e)(emitted) && received.integrityHash == emitted.integrityHash
    requires Execution.PrepareWalletTransaction(Verified(e), received, simulation, now).Ok?
    ensures Execution.PrepareWalletTransaction(Verified(e), received, simulation, now)
         == Execution.PrepareWalletTransaction(Verified(e), emitted, simulation, now)
  {
    assert Verified(e)(received);
    VerifiedHashNamesPlan(e, received, emitted);
    SameTransaction(Verified(e), e.spelling, received, emitted, simulation, now);
  }

  lemma SameTransaction(verify: Simulator.SealedPlan -> bool, n: Spelling, s: Simulator.SealedPlan, t: Simulator.SealedPlan,
                        simulation: Simulator.SimulationResult, now: int)
    requires verify(s) && verify(t) && s.integrityHash == t.integrityHash && SpokenPlan(n, s.plan) == SpokenPlan(n, t.plan)
    ensures Execution.PrepareWalletTransaction(verify, s, simulation, now) == Execution.PrepareWalletTransaction(verify, t, simulation, now)
  {
    assert s.plan.id == SpokenPlan(n, s.plan).id == t.plan.id;
    TransactionOfSpoken(n, s.plan, t.plan, simulation.actionId, simulation);
  }

  // ----- there is such a platform

  /** The parser that accepts exactly the values of plans that obey the schema. */
  ghost function SchemaParser(n: Spelling): Parser {
    (x: Json) => if WellFormed(x) && IsPlanValue(n, x) then Some(x) else None
  }

  ghost predicate IsPlanValue(n: Spelling, x: Json) {
    exists s: Simulator.SealedPlan :: MeetsPlanSchema(s.plan) && Similar(Tree(n, s), x)
  }

  lemma SimilarByHash(collate: Comparison<string>, x: Json, y: Json, z: Json)
    requires IsCollation(collate) && WellFormed(x) && WellFormed(y) && WellFormed(z)
    ensures Similar(x, x)
    ensures Similar(x, y) && Similar(y, z) ==> Similar(x, z)
    ensures Similar(x, y) ==> Similar(y, x)
  {
    SameCanonicalSimilar(collate, x, x);
    if Similar(x, y) {
      SimilarSameCanonical(collate, x, y);
      SameCanonicalSimilar(collate, y, x);
      if Similar(y, z) {
        SimilarSameCanonical(collate, y, z);
        SameCanonicalSimilar(collate, x, z);
      }
    }
  }

  lemma TreeWellFormed(n: Spelling, s: Simulator.SealedPlan)
    requires Faithful(n)
    ensures WellFormed(Tree(n, s)) && HashOf(Tree(n, s)) == Some(s.integrityHash)
    ensures Payload(Tree(n, s)) == PayloadTree(n, s.plan)
  {
    PayloadWellFormed(n, s.plan);
    WithHashParts(PayloadTree(n, s.plan), s.integrityHash);
    WithHashWellFormed(PayloadTree(n, s.plan), s.integrityHash);
  }

  lemma {:induction false} SpokenMeetsSchema(n: Spelling, p: Plan)
    ensures MeetsPlanSchema(SpokenPlan(n, p)) <==> MeetsPlanSchema(p)
  {
    var actions, spoken := p.actions, SpokenActions(n, p.actions);
    forall i | 0 <= i <= |actions| ensures IdSet(spoken[..i]) == IdSet(actions[..i]) {
      SpokenIds(n, actions[..i]);
      assert SpokenActions(n, actions[..i]) == spoken[..i];
    }
    assert forall i :: 0 <= i < |actions| ==> spoken[i].id == actions[i].id && spoken[i].dependencies == actions[i].dependencies;
  }

  lemma {:induction false} SpokenIds(n: Spelling, actions: seq<RescueAction>)
    ensures IdSet(SpokenActions(n, actions)) == IdSet(actions)
  {
    var spoken := SpokenActions(n, actions);
    assert forall i :: 0 <= i < |actions| ==> spoken[i].id == actions[i].id;
    forall id | id in IdSet(actions) ensures id in IdSet(spoken) {
      var i :| 0 <= i < |actions| && actions[i].id == id;
      assert spoken[i] in spoken;
    }
  }

  lemma PlanValues(collate: Comparison<string>, n: Spelling, s: Simulator.SealedPlan)
    requires IsCollation(collate) && Faithful(n)
    ensures SchemaParser(n)(Tree(n, s)).Some? <==> MeetsPlanSchema(s.plan)
  {
    TreeWellFormed(n, s);
    SimilarByHash(collate, Tree(n, s), Tree(n, s), Tree(n, s));
    if IsPlanValue(n, Tree(n, s)) {
      var t: Simulator.SealedPlan :| MeetsPlanSchema(t.plan) && Similar(Tree(n, t), Tree(n, s));
      TreeWellFormed(n, t);
      SimilarPayload(Tree(n, t), Tree(n, s));
      PlanDetermined(n, t.plan, s.plan);
      SpokenMeetsSchema(n, t.plan);
      SpokenMeetsSchema(n, s.plan);
    }
  }

  lemma AcceptedRebuilds(collate: Comparison<string>, n: Spelling, x: Json)
    requires IsCollation(collate) && Faithful(n) && WellFormed(x) && IsPlanValue(n, x)
    ensures Rebuilds(x, x)
  {
    var s: Simulator.SealedPlan :| MeetsPlanSchema(s.plan) && Similar(Tree(n, s), x);
    TreeWellFormed(n, s);
    SimilarHash(Tree(n, s), x);
    SimilarByHash(collate, x, x, x);
  }

  lemma AcceptedInAnyOrder(collate: Comparison<string>, n: Spelling, x: Json, y: Json)
    requires IsCollation(collate) && Faithful(n) && WellFormed(x) && WellFormed(y) && Similar(x, y) && IsPlanValue(n, x)
    ensures IsPlanValue(n, y)
  {
    var s: Simulator.SealedPlan :| MeetsPlanSchema(s.plan) && Similar(Tree(n, s), x);
    TreeWellFormed(n, s);
    SimilarByHash(collate, Tree(n, s), x, y);
  }

  /** Whatever collation, hash and faithful spelling there are, the platform's conditions can be met. */
  lemma SomePlatformIsSane(collate: Comparison<string>, hash: string -> string, n: Spelling)
    requires IsCollation(collate) && IsHash(hash) && Faithful(n)
    ensures Sane(Platform(collate, hash, SchemaParser(n), n, s => true))
  {
    var parse := SchemaParser(n);
    forall x | parse(x).Some? ensures Rebuilds(x, parse(x).value) {
      AcceptedRebuilds(collate, n, x);
    }
    forall x, y | WellFormed(y) && Similar(x, y) && parse(x).Some? ensures parse(y).Some? {
      AcceptedInAnyOrder(collate, n, x, y);
    }
    forall s ensures parse(Tree(n, s)).Some? <==> MeetsPlanSchema(s.plan) {
      PlanValues(collate, n, s);
    }
  }
}
