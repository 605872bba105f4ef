// Runs that no pass can get past: a fully worked initiation that cannot be delivered, which
// holds its ticker's lock, and a run with a finished result that the ledger refuses. No step
// but its cancellation ever changes that, and every tick meets it and raises.
module Starvation {
  import opened Domain
  import opened Protocol
  import opened Invariants
  import opened Effects
  import opened Advancing
  import opened Sources
  import opened Traces
  import opened Worker
  import opened Orchestrator
  import BoundedWork
  import Q = Queue

  // All its work is done within budget, but its coverage is not initiating or has no lead.
  predicate Doomed(db: Db, rid: RunId) {
    && rid < |db.runs| && db.runs[rid].coverage < |db.coverages|
    && db.runs[rid].status.Running? && db.runs[rid].kind.Initiation?
    && (forall k | 0 <= k < |db.runs[rid].stages| :: Satisfied(db.runs[rid].stages[k].status))
    && !OverBudget(db.runs[rid]) && !Deliverable(db.coverages[db.runs[rid].coverage])
  }

  lemma DoomedPassRaises(db: Db, rid: RunId, pass: Pass)
    requires Inv(db) && FundOk(pass.fund) && Doomed(db, rid)
    ensures Advance(db, rid, pass).None?
  {
    AdvanceRaisesIff(db, rid, pass);
  }

  // ---- one step

  lemma StagesStay(db: Db, step: Step, after: Db, rid: RunId)
    requires Inv(db) && Next(db, step, after) && rid < |db.runs| && !(step.Advancing? && step.rid == rid)
    ensures rid < |after.runs| && |after.runs[rid].stages| == |db.runs[rid].stages|
  {
    if QueueStep(step) {
      QueueStandings(db, step, after);
      BoundedWork.QueueSameShape(db, step, after, rid);
    } else if step.Creating? {
      CreateStandings(db, step, after);
      assert after.runs[..|db.runs|][rid] == db.runs[rid];
    } else if step.Advancing? {
      AdvanceStandings(db, step, after, rid);
    } else {
      BoundedWork.OtherSameStages(db, step, after);
    }
  }

  // Finished stages stay, and with them the run's cost.
  lemma FinishedWorkStays(r: Run, t: Run)
    requires RunOk(r) && RunOk(t) && RunEvolves(r, t) && |t.stages| == |r.stages| && AllSatisfied(r)
    ensures AllSatisfied(t) && t.cost == r.cost
  {
    forall k | 0 <= k < |r.stages| ensures t.stages[k] == r.stages[k] {
      assert Q.StageEvolves(r.stages[k], t.stages[k]);
    }
    assert t.stages == r.stages;
  }

  lemma DoomedRunStays(db: Db, step: Step, after: Db, rid: RunId)
    requires Inv(db) && Next(db, step, after) && Doomed(db, rid) && step != Cancelling(rid)
    ensures Inv(after) && rid < |after.runs| && RunEvolves(db.runs[rid], after.runs[rid])
    ensures after.runs[rid].status.Running? && AllSatisfied(after.runs[rid]) && !OverBudget(after.runs[rid])
  {
    NextKeeps(db, step, after);
    if step.Advancing? && step.rid == rid {
      DoomedPassRaises(db, rid, step.pass);
    } else {
      StandingSource(db, step, after, rid);
      StagesStay(db, step, after, rid);
      assert RunEvolves(db.runs[rid], after.runs[rid]) && RunOk(db.runs[rid]) && RunOk(after.runs[rid]);
      FinishedWorkStays(db.runs[rid], after.runs[rid]);
    }
  }

  // The lock keeps every other initiation from starting the coverage.
  lemma NobodyStarts(db: Db, step: Step, after: Db, rid: RunId)
    requires LocksOk(after.runs, after.locks) && rid < |db.runs| && rid < |after.runs| && db.runs[rid].status.Running?
    requires HoldsTicker(after.runs[rid]) && after.runs[rid].coverage == db.runs[rid].coverage
    ensures !StartsCoverage(db, step, after, db.runs[rid].coverage)
  {
  }

  // No step but its cancellation helps it.
  lemma DoomedStays(db: Db, step: Step, after: Db, rid: RunId)
    requires Inv(db) && Next(db, step, after) && Doomed(db, rid) && step != Cancelling(rid)
    ensures Inv(after) && Doomed(after, rid)
  {
    DoomedRunStays(db, step, after, rid);
    var c := db.runs[rid].coverage;
    StateSource(db, step, after, c);
    if Deliverable(after.coverages[c]) {
      InitiatingSource(db, step, after, c);
      NobodyStarts(db, step, after, rid);
    }
  }

  // ---- a result that cannot be registered

  // A finished stage of the run holds an entry that the ledger refuses.
  predicate Choked(db: Db, rid: RunId) {
    rid < |db.runs| && db.runs[rid].status.Running? && BadResult(db.runs[rid], |db.runs[rid].stages|)
  }

  lemma ChokedPassRaises(db: Db, rid: RunId, pass: Pass)
    requires Inv(db) && FundOk(pass.fund) && Choked(db, rid)
    ensures Advance(db, rid, pass).None?
  {
    AdvanceRaisesIff(db, rid, pass);
  }

  // The run is running and this is its k-th stage.
  predicate Holds(db: Db, rid: RunId, k: nat, s: Stage) {
    AtStage(db, rid, k) && db.runs[rid].status.Running? && StageAt(db, rid, k) == s
  }

  // A finished stage keeps its result, refused entries included, and with it the run.
  lemma HoldStays(db: Db, step: Step, after: Db, rid: RunId, k: nat, s: Stage)
    requires Inv(db) && Next(db, step, after) && step != Cancelling(rid)
    requires Holds(db, rid, k, s) && Unregistrable(s)
    ensures Inv(after) && Holds(after, rid, k, s)
  {
    NextKeeps(db, step, after);
    if step.Advancing? && step.rid == rid {
      assert Choked(db, rid);
      ChokedPassRaises(db, rid, step.pass);
    } else {
      StandingSource(db, step, after, rid);
      FinishedStays(db.runs[rid], after.runs[rid], k);
    }
  }

  lemma FinishedStays(r: Run, t: Run, k: nat)
    requires RunEvolves(r, t) && k < |r.stages| && StageTerminal(r.stages[k].status)
    ensures k < |t.stages| && t.stages[k] == r.stages[k]
  {
    assert Q.StageEvolves(r.stages[k], t.stages[k]);
  }

  // ---- every continuation

  // No pass over the run can go through, for the one reason or the other.
  predicate Stuck(db: Db, rid: RunId) {
    Doomed(db, rid) || Choked(db, rid)
  }

  lemma StuckPassRaises(db: Db, rid: RunId, pass: Pass)
    requires Inv(db) && FundOk(pass.fund) && Stuck(db, rid)
    ensures Advance(db, rid, pass).None?
  {
    if Doomed(db, rid) {
      DoomedPassRaises(db, rid, pass);
    } else {
      ChokedPassRaises(db, rid, pass);
    }
  }

  lemma DoomedAlways(p: Trace, db: Db, rid: RunId, i: nat)
    requires Inv(db) && Path(p, db) && Doomed(db, rid) && i < |p.states|
    requires forall j | 0 <= j < |p.steps| :: p.steps[j] != Cancelling(rid)
    ensures Inv(p.states[i]) && Doomed(p.states[i], rid)
  {
    var j := 0;
    while j < i
      invariant j <= i && Inv(p.states[j]) && Doomed(p.states[j], rid)
    {
      assert StepAt(p, j);
      DoomedStays(p.states[j], p.steps[j], p.states[j + 1], rid);
      j := j + 1;
    }
  }

  lemma HeldAlways(p: Trace, db: Db, rid: RunId, k: nat, s: Stage, i: nat)
    requires Inv(db) && Path(p, db) && Holds(db, rid, k, s) && Unregistrable(s) && i < |p.states|
    requires forall j | 0 <= j < |p.steps| :: p.steps[j] != Cancelling(rid)
    ensures Inv(p.states[i]) && Holds(p.states[i], rid, k, s)
  {
    var j := 0;
    while j < i
      invariant j <= i && Inv(p.states[j]) && Holds(p.states[j], rid, k, s)
    {
      assert StepAt(p, j);
      HoldStays(p.states[j], p.steps[j], p.states[j + 1], rid, k, s);
      j := j + 1;
    }
  }

  lemma ChokedAlways(p: Trace, db: Db, rid: RunId, i: nat)
    requires Inv(db) && Path(p, db) && Choked(db, rid) && i < |p.states|
    requires forall j | 0 <= j < |p.steps| :: p.steps[j] != Cancelling(rid)
    ensures Inv(p.states[i]) && Choked(p.states[i], rid)
  {
    var k :| 0 <= k < |db.runs[rid].stages| && Unregistrable(db.runs[rid].stages[k]);
    HeldAlways(p, db, rid, k, db.runs[rid].stages[k], i);
  }

  // In every continuation, until it is cancelled, the run is running with all its work done
  // and no pass over it goes through.
  lemma NeverFinalized(p: Trace, db: Db, rid: RunId, i: nat, pass: Pass)
    requires Inv(db) && Path(p, db) && Doomed(db, rid) && i < |p.states| && FundOk(pass.fund)
    requires forall j | 0 <= j < |p.steps| :: p.steps[j] != Cancelling(rid)
    ensures Doomed(p.states[i], rid) && Advance(p.states[i], rid, pass).None?
  {
    DoomedAlways(p, db, rid, i);
    DoomedPassRaises(p.states[i], rid, pass);
  }

  // The same for a run that holds a refused result.
  lemma NeverRegistered(p: Trace, db: Db, rid: RunId, i: nat, pass: Pass)
    requires Inv(db) && Path(p, db) && Choked(db, rid) && i < |p.states| && FundOk(pass.fund)
    requires forall j | 0 <= j < |p.steps| :: p.steps[j] != Cancelling(rid)
    ensures Choked(p.states[i], rid) && Advance(p.states[i], rid, pass).None?
  {
    ChokedAlways(p, db, rid, i);
    ChokedPassRaises(p.states[i], rid, pass);
  }

  // ---- every tick

  lemma StuckReach(p: Trace, from: Db, to: Db, rid: RunId)
    requires Inv(from) && Stuck(from, rid) && Reaches(p, from, to) && Uncancelled(p.steps)
    ensures Inv(to) && Stuck(to, rid)
  {
    if Doomed(from, rid) {
      DoomedAlways(p, from, rid, |p.steps|);
    } else {
      ChokedAlways(p, from, rid, |p.steps|);
    }
  }

  // Its own turn never goes through.
  lemma OwnLegRaises(leg: Leg, setup: Setup, rid: RunId)
    requires Inv(leg.before.db) && Stuck(leg.before.db, rid) && FundOk(setup.fund)
    ensures !LegOk(leg, rid, setup)
  {
    if LegOk(leg, rid, setup) {
      DrainReaches(leg.before.db, leg.at, leg.drain, setup.shift, leg.before.fails);
      DrainIsUncancelled(leg.before.db, leg.at, leg.drain, setup.shift, leg.before.fails);
      StuckReach(leg.drain, leg.before.db, leg.at, rid);
      StuckPassRaises(leg.at, rid, leg.pass);
    }
  }

  lemma NoTurn(from: Point, ids: seq<RunId>, legs: seq<Leg>, setup: Setup, n: nat, rid: RunId)
    requires Inv(from.db) && Stuck(from.db, rid) && FundOk(setup.fund) && Tour(from, ids, legs, setup) && n < |legs|
    ensures ids[n] != rid
  {
    var p := TourPath(from, ids, legs, setup, n);
    LegAt(from, ids, legs, setup, n);
    StuckReach(p, from.db, legs[n].before.db, rid);
    OwnLegRaises(legs[n], setup, rid);
  }

  lemma NoTourOfAll(from: Point, legs: seq<Leg>, setup: Setup, rid: RunId)
    requires Inv(from.db) && Stuck(from.db, rid) && FundOk(setup.fund)
    requires Tour(from, RunningRuns(from.db), legs, setup)
    ensures |legs| < |RunningRuns(from.db)|
  {
    var ids := RunningRuns(from.db);
    IdsWithExact(from.db.runs, RunStatus.Running, |from.db.runs|);
    var n :| 0 <= n < |ids| && ids[n] == rid;
    if n < |legs| {
      NoTurn(from, ids, legs, setup, n, rid);
    }
  }

  // No tick goes through while there is such a run: each one raises and changes nothing,
  // so no other run is promoted or advanced by a tick either.
  lemma EveryTickRaises(from: Point, to: Point, legs: seq<Leg>, setup: Setup, rid: RunId)
    requires Inv(from.db) && Stuck(from.db, rid) && FundOk(setup.fund)
    ensures !Ticked(from, to, legs, setup)
  {
    if Ticked(from, to, legs, setup) {
      var mid := PromoteQueued(from.db, setup.houses).value;
      var p := PromotionsPath(from.db, QueuedRuns(from.db), |QueuedRuns(from.db)|, setup.houses);
      StuckReach(p, from.db, mid, rid);
      NoTourOfAll(Point(mid, from.fails), legs, setup, rid);
    }
  }
}
