// Which initiations the engine accepts, and what it then creates
// (core/orchestrator/engine.py, create_run).
module Creation {
  import opened Domain
  import opened Protocol
  import Plans = Planner

  // A house that may fill an analyst slot: it exists and is not a meta house.
  predicate Analyst(h: House, req: Request) {
    h in req.houses && h !in req.metaHouses
  }

  // The seats of an initiation can be filled: by analysts for lead and verifiers, by any
  // known house for the data checker.
  predicate Staffed(args: Plans.Args, req: Request) {
    && args.lead.Some? && Analyst(args.lead.value, req)
    && (forall i | 0 <= i < |Plans.Verifiers(args.contributors, args.verifyCount)| ::
          Analyst(Plans.Verifiers(args.contributors, args.verifyCount)[i], req))
    && (args.includeDataChecker && |args.contributors| > 0 ==> args.contributors[0] in req.houses)
  }

  lemma SeatsOfInitiation(args: Plans.Args, req: Request)
    requires args.metaHouses == req.metaHouses
    ensures var plan := Plans.Plan(Initiation, args);
            plan.Some? && Seatable(plan.value, req.houses) <==> Staffed(args, req)
  {
    var vs := Plans.Verifiers(args.contributors, args.verifyCount);
    var slots := Plans.InitiationSlots(args);
    Plans.SlotLayout(args);
    if Plans.Plan(Initiation, args).Some? {
      var plan := Plans.Plan(Initiation, args).value;
      assert forall i | 0 <= i < |plan| :: plan[i].house == slots[i].house;
      if Seatable(plan, req.houses) {
        assert plan[0].house == args.lead;
        forall i | 0 <= i < |vs| ensures Analyst(vs[i], req) {
          assert plan[i + 1].house == Some(vs[i]);
          assert vs[i] in vs;
        }
        if args.includeDataChecker && |args.contributors| > 0 {
          assert plan[|vs| + 1].house == Some(args.contributors[0]);
        }
      }
      if Staffed(args, req) {
        forall i | 0 <= i < |plan| ensures plan[i].house.Some? && plan[i].house.value in req.houses {
          SlotIsStaffed(args, req, i);
        }
      }
    }
  }

  lemma SlotIsStaffed(args: Plans.Args, req: Request, i: nat)
    requires Staffed(args, req) && i < |Plans.InitiationSlots(args)|
    ensures var house := Plans.InitiationSlots(args)[i].house; house.Some? && house.value in req.houses
  {
    var vs := Plans.Verifiers(args.contributors, args.verifyCount);
    Plans.SlotLayout(args);
    if 1 <= i <= |vs| {
      assert Plans.InitiationSlots(args)[i] == Plans.Slot(Verifier, Some(vs[i - 1]));
      assert Analyst(vs[i - 1], req);
    }
  }

  // An initiation is created if and only if it has a policy and an existing coverage and
  // its seats can be filled.
  lemma InitiationAcceptedIff(db: Db, fund: Fund, req: Request)
    requires req.kind.Initiation?
    ensures CreateRun(db, fund, req).Some? <==>
              && Initiation in fund.policies && req.coverage.Some? && req.coverage.value < |db.coverages|
              && Staffed(PlanArgs(db, fund, req), req)
  {
    if Initiation in fund.policies && req.coverage.Some? && req.coverage.value < |db.coverages| {
      SeatsOfInitiation(PlanArgs(db, fund, req), req);
    }
  }

  // Whatever is created starts queued, gateless and free, with one untried stage per seat
  // of its plan, in order; no other row changes.
  lemma CreatedRun(db: Db, fund: Fund, req: Request, k: nat)
    requires CreateRun(db, fund, req).Some?
    requires k < |CreateRun(db, fund, req).value.runs[|db.runs|].stages|
    ensures var after := CreateRun(db, fund, req).value;
            var r := after.runs[|db.runs|];
            var plan := Plans.Plan(req.kind, PlanArgs(db, fund, req)).value;
            && after == db.(runs := db.runs + [r])
            && r.status.Queued? && r.gates == [] && r.cost == 0.0 && r.createdAt == db.now
            && r.coverage == req.coverage.value && r.kind == req.kind
            && |r.stages| == |plan|
            && r.stages[k].seqNo == k + 1 && r.stages[k].role == plan[k].role
                && Some(r.stages[k].house) == plan[k].house
            && r.stages[k].status.Queued? && r.stages[k].attempts == 0 && r.stages[k].rows == []
                && r.stages[k].availableAt == db.now
            && r.stages[k].dependsOn == (if k == 0 then None else Some(k))
            && r.stages[k].maxAttempts == fund.policies[req.kind].maxAttempts
  {
    Plans.PlanIsChain(req.kind, PlanArgs(db, fund, req));
  }
}
