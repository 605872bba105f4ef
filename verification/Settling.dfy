// What is left of a run once a worker has drained the queue, and what an advance pass then
// makes of it: no run is ever left running with nothing happening to it.
module Settling {
  import opened Domain
  import opened Protocol
  import opened Invariants
  import opened Advancing
  import opened Sources
  import opened Worker
  import Q = Queue
  import Safety

  predicate InFlight(r: Run) {
    exists k :: 0 <= k < |r.stages| && r.stages[k].status.Running?
  }

  // With every stage before it done and none failed, a stage has its dependency met.
  lemma FrontIsReady(r: Run, j: nat)
    requires RunOk(r) && !AnyFailed(r) && j < |r.stages|
    requires forall h | 0 <= h < j :: StageTerminal(r.stages[h].status)
    ensures Q.DependencyMet(r, r.stages[j])
  {
    DependencyByPosition(r, j);
  }

  // A running run of a drained queue is done, failed, in flight or waiting for a retry.
  lemma DrainedRunIsSettled(db: Db, rid: RunId)
    requires RunsOk(db.runs) && NothingToClaim(db) && rid < |db.runs| && db.runs[rid].status.Running?
    ensures var r := db.runs[rid];
            AllTerminal(r) || AnyFailed(r) || InFlight(r) || BackoffPending(r, db.now)
  {
    var r := db.runs[rid];
    if !AllTerminal(r) && !AnyFailed(r) {
      var k :| 0 <= k < |r.stages| && !StageTerminal(r.stages[k].status);
      var j := Safety.FirstUnfinished(r, k);
      FrontIsReady(r, j);
      assert !Q.Eligible(db.runs, rid, j, db.now, ANY);
    }
  }

  // So a pass over it that does not raise leaves it running only if a worker still holds
  // one of its stages, or the pass has just appended its cross-check.
  lemma PassSettles(db: Db, rid: RunId, pass: Pass, after: Db)
    requires Inv(db) && FundOk(pass.fund) && NothingToClaim(db) && rid < |db.runs| && db.runs[rid].status.Running?
    requires Advance(db, rid, pass) == Some(after) && rid < |after.runs| && after.runs[rid].status.Running?
    ensures InFlight(db.runs[rid]) || |after.runs[rid].stages| > |db.runs[rid].stages|
  {
    var mid := AfterScan(db, rid, ScanOf(db, rid, pass).value);
    AdvanceOutcome(db, rid, pass, after);
    ConcludeExact(mid, rid);
    StaysRunning(mid, rid, after);
    DrainedRunIsSettled(db, rid);
    ScanKeeps(db, rid, pass);
    ScanAddsOnly(db.runs[rid], mid.runs[rid], db.now);
  }

  lemma StaysRunning(db: Db, rid: RunId, after: Db)
    requires rid < |db.runs| && db.runs[rid].coverage < |db.coverages| && db.runs[rid].status.Running?
    requires Verdict(db, rid) == Some(after) && rid < |after.runs| && after.runs[rid].status.Running?
    ensures after == db && !AllTerminal(db.runs[rid]) && !AnyFailed(db.runs[rid])
        && !BackoffPending(db.runs[rid], db.now)
  {
  }

  lemma ScanAddsOnly(r: Run, t: Run, now: Time)
    requires ScanRunOk(r, t)
    ensures |t.stages| > |r.stages| || t.stages == r.stages
    ensures t.stages == r.stages ==>
              (AllTerminal(t) <==> AllTerminal(r)) && (AnyFailed(t) <==> AnyFailed(r))
                  && (BackoffPending(t, now) <==> BackoffPending(r, now))
  {
  }
}
