// Why the other modules assume a session that flushes before it reads: the session
// factory (core/db/session.py) turns that off, and two operations read back what they
// have just written. Here is exactly what goes wrong when they cannot see it.
module SessionReads {
  import opened Domain
  import opened Protocol
  import opened Invariants
  import opened Lifecycle
  import opened Advancing
  import Q = Queue
  import X = CrossCheck
  import Predictions

  // ---- the roll-up sum (core/db/queue.py)

  // The sum is taken over the stages as they were before this attempt was closed.
  function StaleRollUp(r: Run, k: nat, s: Stage): Run
    requires k < |r.stages|
  {
    r.(stages := r.stages[k := s], cost := Q.StageCost(r.stages))
  }

  lemma {:induction false} StageCostChange(stages: seq<Stage>, k: nat, s: Stage)
    requires k < |stages|
    ensures Q.StageCost(stages[k := s]) == Q.StageCost(stages) - stages[k].cost + s.cost
  {
    var n := |stages| - 1;
    if k == n {
      assert stages[k := s][..n] == stages[..n];
    } else {
      assert stages[k := s][..n] == stages[..n][k := s];
      StageCostChange(stages[..n], k, s);
    }
  }

  // The run's cost is then short by exactly what this attempt cost, so it is right if and
  // only if the attempt was free.
  lemma StaleRollUpLags(r: Run, k: nat, cost: real, result: StageResult)
    requires k < |r.stages| && Q.Completed(r.stages[k], cost, result).Some?
    ensures var t := StaleRollUp(r, k, Q.Completed(r.stages[k], cost, result).value);
            && Q.StageCost(t.stages) == t.cost + cost
            && (t.cost == Q.StageCost(t.stages) <==> cost == 0.0)
  {
    StageCostChange(r.stages, k, Q.Completed(r.stages[k], cost, result).value);
  }

  // Failing an attempt rolls up the same way, whether it is retried or not.
  lemma StaleFailureLags(r: Run, k: nat, cost: real, retryable: bool, kill: Option<string>, retryAt: Time, now: Time)
    requires k < |r.stages| && Q.FailedAttempt(r.stages[k], cost, retryable, kill, retryAt, now).Some?
    ensures var t := StaleRollUp(r, k, Q.FailedAttempt(r.stages[k], cost, retryable, kill, retryAt, now).value);
            && Q.StageCost(t.stages) == t.cost + cost
            && (t.cost == Q.StageCost(t.stages) <==> cost == 0.0)
  {
    StageCostChange(r.stages, k, Q.FailedAttempt(r.stages[k], cost, retryable, kill, retryAt, now).value);
  }

  // ---- the re-read of the stages (core/orchestrator/engine.py)

  // The pass decides on the stages the run had before a cross-check was appended, and the
  // appended stage reaches the table only afterwards.
  function StaleAdvance(db: Db, rid: RunId, pass: Pass): Option<Db>
    requires rid < |db.runs|
  {
    var scan := ScanOf(db, rid, pass);
    if scan.None? then None
    else
      var done := Conclude(db.(ledger := scan.value.ledger), rid);
      if done.None? || rid >= |done.value.runs| then None
      else Some(SetRun(done.value, rid, done.value.runs[rid].(stages := scan.value.run.stages)))
  }

  // Such a pass ends an event analysis as succeeded with its cross-check still waiting
  // exactly when the author's finished work is within budget and moved the target price
  // materially, and no cross-check was there before.
  lemma StalePassSucceedsUncheckedIff(db: Db, rid: RunId, pass: Pass)
    requires Inv(db) && FundOk(pass.fund) && rid < |db.runs|
    requires db.runs[rid].status.Running? && db.runs[rid].kind.EventAnalysis?
    requires StaleAdvance(db, rid, pass).Some?
    ensures var r := db.runs[rid];
            var t := StaleAdvance(db, rid, pass).value.runs[rid];
            t.status.Succeeded? && !AllSatisfied(t) <==>
              && AllSatisfied(r) && !OverBudget(r)
              && X.AutoCrossCheck(r.stages[0].result, pass.lastTp, pass.fund.tpChangePct) && !HasCrossCheck(r)
  {
    var r := db.runs[rid];
    var scan := ScanOf(db, rid, pass).value;
    assert RunOk(r);
    ScanRunExact(Scan(r, db.ledger), rid, |r.stages|, pass, db.now);
    LedgerOnly(db, rid, scan.ledger);
    StaleEnds(r, scan.run, pass, db.now);
  }

  // How a pass ends does not depend on the ledger.
  lemma LedgerOnly(db: Db, rid: RunId, ledger: seq<Predictions.Prediction>)
    requires Inv(db) && rid < |db.runs| && db.runs[rid].status.Running? && db.runs[rid].kind.EventAnalysis?
    requires Conclude(db.(ledger := ledger), rid).Some?
    ensures var after := Conclude(db.(ledger := ledger), rid).value;
            rid < |after.runs|
            && (after.runs[rid].status.Succeeded? <==> AllSatisfied(db.runs[rid]) && !OverBudget(db.runs[rid]))
  {
    var r := db.runs[rid];
    var read := db.(ledger := ledger);
    StatusMeaning(read, rid);
    FailRunMeaning(read, rid);
    FinishMeaning(read, rid, RunStatus.Failed);
    FinishMeaning(read, rid, RunStatus.Succeeded);
    if AllTerminal(r) && !AnyFailed(r) {
      AllTerminalSatisfied(r);
    }
    if AllSatisfied(r) {
      SatisfiedIsTerminal(r, db.now);
    }
  }

  lemma SatisfiedIsTerminal(r: Run, now: Time)
    requires AllSatisfied(r)
    ensures !AnyFailed(r) && !BackoffPending(r, now) && AllTerminal(r)
  {
  }

  lemma StaleEnds(r: Run, t: Run, pass: Pass, now: Time)
    requires RunOk(r) && r.kind.EventAnalysis?
    requires if SeesAuthor(r) then MaybeAppend(r, r.stages[0], pass, now) == Some(t) else t == r
    ensures AllSatisfied(r) && !AllSatisfied(t) <==>
              AllSatisfied(r) && X.AutoCrossCheck(r.stages[0].result, pass.lastTp, pass.fund.tpChangePct)
                  && !HasCrossCheck(r)
  {
    assert Q.StageOk(r.stages[0]);
    if t != r {
      assert !Satisfied(t.stages[|r.stages|].status);
    }
  }
}
