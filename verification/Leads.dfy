// Where a coverage's lead comes from, and what it decides: the run that starts an
// initiation writes its stored lead_house, null included, and the delivery is refused by
// the table's constraint where that left the coverage without one.
module Leads {
  import opened Domain
  import opened Protocol
  import opened Invariants
  import opened Effects
  import opened Lifecycle
  import opened Sources
  import opened Traces
  import Plans = Planner

  // The run that started the initiation in progress wrote the last row of the log.
  ghost predicate LedBy(runs: seq<Run>, cov: Coverage) {
    cov.state.Initiating? ==>
      && |cov.log| > 0 && cov.log[|cov.log| - 1].run.Some? && cov.log[|cov.log| - 1].run.value < |runs|
      && cov.lead == runs[cov.log[|cov.log| - 1].run.value].leadHouse
  }

  ghost predicate Led(db: Db) {
    forall c | 0 <= c < |db.coverages| :: LedBy(db.runs, db.coverages[c])
  }

  lemma LedStays(runs: seq<Run>, after: seq<Run>, cov: Coverage)
    requires LedBy(runs, cov) && RunsEvolve(runs, after)
    ensures LedBy(after, cov)
  {
    if cov.state.Initiating? {
      var q := cov.log[|cov.log| - 1].run.value;
      assert RunEvolves(runs[q], after[q]);
    }
  }

  lemma LedNext(db: Db, step: Step, after: Db)
    requires Inv(db) && Led(db) && Next(db, step, after)
    ensures Led(after)
  {
    NextKeeps(db, step, after);
    forall c | 0 <= c < |after.coverages| ensures LedBy(after.runs, after.coverages[c]) {
      if after.coverages[c].state.Initiating? {
        InitiatingSource(db, step, after, c);
        if c < |db.coverages| && after.coverages[c] == db.coverages[c] {
          LedStays(db.runs, after.runs, db.coverages[c]);
        }
      }
    }
  }

  lemma {:induction false} LedAlways(tr: Trace, i: nat)
    requires Valid(tr) && i < |tr.states|
    ensures Led(tr.states[i])
  {
    if i > 0 {
      LedAlways(tr, i - 1);
      InvAlways(tr, i - 1);
      StepTaken(tr, i - 1);
      LedNext(tr.states[i - 1], tr.steps[i - 1], tr.states[i]);
    }
  }

  // The lead stored by the run that started the initiation in progress.
  function StarterLead(db: Db, cov: Coverage): Option<House> {
    if |cov.log| > 0 && cov.log[|cov.log| - 1].run.Some? && cov.log[|cov.log| - 1].run.value < |db.runs|
    then db.runs[cov.log[|cov.log| - 1].run.value].leadHouse
    else None
  }

  // In every reachable state a running initiation can be finalized if and only if its
  // coverage is initiating and the run that started it had stored a lead.
  lemma FinalizableIff(tr: Trace, i: nat, rid: RunId)
    requires Valid(tr) && i < |tr.states| && rid < |tr.states[i].runs|
    requires tr.states[i].runs[rid].status.Running? && tr.states[i].runs[rid].kind.Initiation?
    ensures var db := tr.states[i];
            var c := db.runs[rid].coverage;
            && c < |db.coverages|
            && (FinalizeRun(db, rid).Some? <==>
                  db.coverages[c].state.Initiating? && StarterLead(db, db.coverages[c]).Some?)
  {
    var db := tr.states[i];
    InvAlways(tr, i);
    LedAlways(tr, i);
    assert LedBy(db.runs, db.coverages[db.runs[rid].coverage]);
    FinalizeMeaning(db, rid);
  }

  // An accepted initiation stores a lead if and only if the caller named a house for it or
  // left the entry out; a null entry is kept, and so is the empty key the lead may be.
  lemma LeadStoredIff(db: Db, fund: Fund, req: Request)
    requires req.kind.Initiation? && CreateRun(db, fund, req).Some?
    ensures var r := CreateRun(db, fund, req).value.runs[|db.runs|];
            r.leadHouse.Some? <==>
              if req.leadHouse.Some? then req.leadHouse.value.Some? else PlanArgs(db, fund, req).lead != Some("")
  {
    var args := PlanArgs(db, fund, req);
    var plan := Plans.Plan(Initiation, args).value;
    Plans.PlanIsChain(Initiation, args);
    assert plan[0].house == args.lead;
    assert plan[0].house.Some?;
  }

  // A promotion raises if and only if there is no such run, or it would start an initiation
  // under a stored lead that is not in the houses table.
  lemma PromoteRaisesIff(db: Db, rid: RunId, houses: set<House>)
    ensures Promote(db, rid, houses).None? <==>
              || rid >= |db.runs|
              || (var r := db.runs[rid];
                  && r.status.Queued? && StartRun(db, rid).ok
                  && r.kind.Initiation? && r.coverage < |db.coverages| && db.coverages[r.coverage].state.Proposed?
                  && !KnownLead(r.leadHouse, houses))
  {
    if rid < |db.runs| && db.runs[rid].status.Queued? {
      var mid := StartRun(db, rid).db;
      StartStandings(db, rid, rid);
      var r := db.runs[rid];
      if r.coverage < |mid.coverages| && mid.coverages[r.coverage].state.Proposed? {
        StartMeaning(mid, r.coverage, rid);
      }
    }
  }

  // ---- no way back for a coverage left without a lead

  // Initiating without a lead, or failed.
  predicate Lost(cov: Coverage) {
    cov.state.Failed? || (cov.state.Initiating? && cov.lead.None?)
  }

  lemma LostStays(db: Db, step: Step, after: Db, c: CoverageId)
    requires Inv(db) && Next(db, step, after) && c < |db.coverages| && Lost(db.coverages[c])
    ensures Inv(after) && c < |after.coverages| && Lost(after.coverages[c])
    ensures db.coverages[c].state.Failed? ==> after.coverages[c] == db.coverages[c]
  {
    NextKeeps(db, step, after);
    if db.coverages[c].state.Failed? {
      FailedSource(db, step, after, c);
    } else {
      StateSource(db, step, after, c);
      if step.Advancing? {
        UnledPass(db, step, after, c);
      }
    }
  }

  // In every continuation such a coverage is still initiating without a lead, or has
  // failed, and a failed one never moves again: cancelling its run does not bring it back.
  lemma LostForEver(p: Trace, db: Db, c: CoverageId, i: nat)
    requires Inv(db) && Path(p, db) && i < |p.states| && c < |db.coverages| && Lost(db.coverages[c])
    ensures Inv(p.states[i]) && c < |p.states[i].coverages| && Lost(p.states[i].coverages[c])
    ensures db.coverages[c].state.Failed? ==> p.states[i].coverages[c] == db.coverages[c]
  {
    var j := 0;
    while j < i
      invariant j <= i && Inv(p.states[j]) && c < |p.states[j].coverages| && Lost(p.states[j].coverages[c])
      invariant db.coverages[c].state.Failed? ==> p.states[j].coverages[c] == db.coverages[c]
    {
      assert StepAt(p, j);
      LostStays(p.states[j], p.steps[j], p.states[j + 1], c);
      j := j + 1;
    }
  }
}
