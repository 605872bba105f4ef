// Retry budgets bound all the work that workers and the reaper can ever do.
module BoundedWork {
  import opened Domain
  import opened Protocol
  import opened Invariants
  import opened Advancing
  import opened Sources
  import opened Traces
  import Safety
  import P = Predictions
  import Q = Queue

  // ---- budget used up so far

  function Spent(s: Stage): int {
    2 * s.maxAttempts - Q.Potential(s)
  }

  function SpentOf(stages: seq<Stage>): int {
    Q.AllowanceOf(stages) - Q.PotentialOf(stages)
  }

  function TotalSpent(runs: seq<Run>): int {
    if runs == [] then 0 else TotalSpent(runs[..|runs| - 1]) + SpentOf(runs[|runs| - 1].stages)
  }

  function TotalAllowance(runs: seq<Run>): int {
    if runs == [] then 0 else TotalAllowance(runs[..|runs| - 1]) + Q.AllowanceOf(runs[|runs| - 1].stages)
  }

  lemma {:induction false} TotalSpentUpdate(runs: seq<Run>, rid: RunId, t: Run)
    requires rid < |runs|
    ensures TotalSpent(runs[rid := t]) == TotalSpent(runs) - SpentOf(runs[rid].stages) + SpentOf(t.stages)
  {
    var n := |runs| - 1;
    if rid == n {
      assert runs[rid := t][..n] == runs[..n];
    } else {
      assert runs[rid := t][..n] == runs[..n][rid := t];
      TotalSpentUpdate(runs[..n], rid, t);
    }
  }

  lemma {:induction false} TotalSpentWithin(runs: seq<Run>)
    requires RunsOk(runs)
    ensures 0 <= TotalSpent(runs) <= TotalAllowance(runs)
  {
    if runs != [] {
      var r := runs[|runs| - 1];
      TotalSpentWithin(runs[..|runs| - 1]);
      assert RunOk(r);
      Q.PotentialNonNegative(r.stages);
    }
  }

  lemma SpentUpdate(stages: seq<Stage>, k: nat, s: Stage)
    requires k < |stages| && s.maxAttempts == stages[k].maxAttempts
    ensures SpentOf(stages[k := s]) == SpentOf(stages) - Spent(stages[k]) + Spent(s)
  {
    Q.PotentialUpdate(stages, k, s);
    Q.AllowanceUpdate(stages, k, s);
  }

  // ---- each step

  function Work(step: Step): nat {
    if step.Claiming? || step.Completing? || step.Failing? || step.Reaping? then 1 else 0
  }

  function WorkOf(steps: seq<Step>): nat {
    if steps == [] then 0 else WorkOf(steps[..|steps| - 1]) + Work(steps[|steps| - 1])
  }

  lemma SetStageSpends(db: Db, after: Db, rid: RunId, k: nat, s: Stage, work: nat)
    requires AtStage(db, rid, k) && rid < |after.runs|
    requires after.runs == db.runs[rid := after.runs[rid]] && after.runs[rid].stages == db.runs[rid].stages[k := s]
    requires s.maxAttempts == StageAt(db, rid, k).maxAttempts
    requires Q.Potential(s) <= Q.Potential(StageAt(db, rid, k)) - work
    ensures TotalSpent(after.runs) >= TotalSpent(db.runs) + work
  {
    SpentUpdate(db.runs[rid].stages, k, s);
    TotalSpentUpdate(db.runs, rid, after.runs[rid]);
  }

  lemma ClaimSpends(db: Db, step: Step, after: Db)
    requires RunsOk(db.runs) && Next(db, step, after) && step.Claiming?
    ensures TotalSpent(after.runs) >= TotalSpent(db.runs) + 1
  {
    var s := StageAt(db, step.rid, step.k);
    assert Q.StageOk(s);
    SetStageSpends(db, after, step.rid, step.k, Q.Claimed(s, step.worker, db.now, step.lease), 1);
  }

  lemma CompleteSpends(db: Db, step: Step, after: Db)
    requires RunsOk(db.runs) && Next(db, step, after) && step.Completing?
    ensures TotalSpent(after.runs) >= TotalSpent(db.runs) + 1
  {
    var s := StageAt(db, step.rid, step.k);
    assert Q.StageOk(s);
    SetStageSpends(db, after, step.rid, step.k, Q.Completed(s, step.cost, step.result).value, 1);
  }

  function FailedStage(db: Db, step: Step): Option<Stage>
    requires step.Failing? && AtStage(db, step.rid, step.k)
  {
    var s := StageAt(db, step.rid, step.k);
    Q.FailedAttempt(s, step.cost, step.retryable, step.kill, Q.RetryAt(s, db.now, step.backoff, step.factor), db.now)
  }

  lemma FailSets(db: Db, step: Step, after: Db)
    requires Next(db, step, after) && step.Failing?
    ensures AtStage(db, step.rid, step.k) && StageAt(db, step.rid, step.k).status.Running?
    ensures FailedStage(db, step).Some? && step.rid < |after.runs|
    ensures after.runs == db.runs[step.rid := after.runs[step.rid]]
    ensures after.runs[step.rid].stages == db.runs[step.rid].stages[step.k := FailedStage(db, step).value]
  {
  }

  lemma FailSpends(db: Db, step: Step, after: Db)
    requires RunsOk(db.runs) && Next(db, step, after) && step.Failing?
    ensures TotalSpent(after.runs) >= TotalSpent(db.runs) + 1
  {
    FailSets(db, step, after);
    assert Q.StageOk(StageAt(db, step.rid, step.k));
    SetStageSpends(db, after, step.rid, step.k, FailedStage(db, step).value, 1);
  }

  lemma ReapSpends(db: Db, step: Step, after: Db)
    requires RunsOk(db.runs) && Next(db, step, after) && step.Reaping?
    ensures TotalSpent(after.runs) >= TotalSpent(db.runs) + 1
  {
    var s := StageAt(db, step.rid, step.k);
    assert Q.StageOk(s);
    SetStageSpends(db, after, step.rid, step.k, Q.Reaped(s, Q.RetryAt(s, db.now, step.backoff, step.factor)), 1);
  }

  lemma BeatSpends(db: Db, step: Step, after: Db)
    requires Inv(db) && Next(db, step, after) && step.Beating?
    ensures TotalSpent(after.runs) >= TotalSpent(db.runs)
  {
    var s := StageAt(db, step.rid, step.k);
    if after != db {
      SetStageSpends(db, after, step.rid, step.k, s.(leaseExpiresAt := Some(db.now + step.lease)), 0);
    }
  }

  ghost predicate SameStages(runs: seq<Run>, after: seq<Run>) {
    |runs| == |after| && forall q | 0 <= q < |runs| :: after[q].stages == runs[q].stages
  }

  lemma {:induction false} SameStagesSpend(runs: seq<Run>, after: seq<Run>)
    requires SameStages(runs, after)
    ensures TotalSpent(after) == TotalSpent(runs)
  {
    if runs != [] {
      SameStagesSpend(runs[..|runs| - 1], after[..|runs| - 1]);
    }
  }

  lemma {:induction false} FreshSpend(stages: seq<Stage>)
    requires forall k | 0 <= k < |stages| :: stages[k].status.Queued? && stages[k].attempts == 0
    ensures SpentOf(stages) == 0
  {
    if stages != [] {
      FreshSpend(stages[..|stages| - 1]);
    }
  }

  lemma CreateSpends(db: Db, step: Step, after: Db)
    requires Inv(db) && Next(db, step, after) && step.Creating?
    ensures TotalSpent(after.runs) == TotalSpent(db.runs)
    ensures |after.runs| == |db.runs| + 1
    ensures forall k | 0 <= k < |after.runs[|db.runs|].stages| :: after.runs[|db.runs|].stages[k].attempts == 0
  {
    CreateStandings(db, step, after);
    FreshSpend(after.runs[|db.runs|].stages);
    assert after.runs[..|db.runs|] == db.runs;
  }

  // What the scan may have done to the run's stages.
  ghost predicate MayAppend(r: Run, t: Run, pass: Pass, now: Time) {
    && r.stages != []
    && (|| t.stages == r.stages
        || (MaybeAppend(r, r.stages[0], pass, now).Some?
            && t.stages == MaybeAppend(r, r.stages[0], pass, now).value.stages))
  }

  lemma ScanShape(r: Run, ledger: seq<P.Prediction>, rid: RunId, pass: Pass, now: Time)
    requires RunOk(r) && ScanTo(Scan(r, ledger), rid, |r.stages|, pass, now).Some?
    ensures MayAppend(r, ScanTo(Scan(r, ledger), rid, |r.stages|, pass, now).value.run, pass, now)
  {
    ScanRunExact(Scan(r, ledger), rid, |r.stages|, pass, now);
  }

  lemma OnlyOneDiffers(runs: seq<Run>, after: seq<Run>, rid: RunId)
    requires rid < |runs| == |after| && forall q | 0 <= q < |runs| && q != rid :: after[q] == runs[q]
    ensures after == runs[rid := after[rid]]
  {
  }

  lemma PassRuns(db: Db, rid: RunId, pass: Pass, after: Db)
    requires Inv(db) && FundOk(pass.fund) && rid < |db.runs| && db.runs[rid].status.Running?
    requires Advance(db, rid, pass) == Some(after)
    ensures ScanOf(db, rid, pass).Some? && RunOk(db.runs[rid])
    ensures |after.runs| == |db.runs| && forall q | 0 <= q < |db.runs| && q != rid :: after.runs[q] == db.runs[q]
    ensures after.runs[rid].stages == ScanOf(db, rid, pass).value.run.stages
  {
    AdvanceOutcome(db, rid, pass, after);
    ConcludeOutcome(AfterScan(db, rid, ScanOf(db, rid, pass).value), rid, after);
  }

  lemma PassShape(db: Db, rid: RunId, pass: Pass, after: Db)
    requires Inv(db) && FundOk(pass.fund) && rid < |db.runs| && db.runs[rid].status.Running?
    requires Advance(db, rid, pass) == Some(after)
    ensures |after.runs| == |db.runs| && after.runs == db.runs[rid := after.runs[rid]]
    ensures MayAppend(db.runs[rid], after.runs[rid], pass, db.now)
  {
    PassRuns(db, rid, pass, after);
    OnlyOneDiffers(db.runs, after.runs, rid);
    ScanShape(db.runs[rid], db.ledger, rid, pass, db.now);
  }

  // A pass leaves every stage of every run alone; at most it appends a fresh one.
  lemma AdvanceSpends(db: Db, step: Step, after: Db)
    requires Inv(db) && Next(db, step, after) && step.Advancing?
    ensures TotalSpent(after.runs) >= TotalSpent(db.runs)
    ensures |after.runs| == |db.runs|
    ensures forall q | 0 <= q < |db.runs| ::
              && db.runs[q].stages <= after.runs[q].stages
              && (forall k | |db.runs[q].stages| <= k < |after.runs[q].stages| ::
                    after.runs[q].stages[k].attempts == 0 && after.runs[q].stages[k].status.Queued?)
  {
    var rid := step.rid;
    if db.runs[rid].status.Running? {
      PassShape(db, rid, step.pass, after);
      AppendedFresh(db.runs[rid], after.runs[rid], step.pass, db.now);
      TotalSpentUpdate(db.runs, rid, after.runs[rid]);
    }
  }

  lemma AppendedFresh(r: Run, t: Run, pass: Pass, now: Time)
    requires MayAppend(r, t, pass, now)
    ensures r.stages <= t.stages && SpentOf(t.stages) == SpentOf(r.stages)
    ensures forall k | |r.stages| <= k < |t.stages| :: t.stages[k].attempts == 0 && t.stages[k].status.Queued?
  {
    if t.stages != r.stages {
      assert t.stages[..|r.stages|] == r.stages;
      assert |t.stages| == |r.stages| + 1;
    }
  }

  lemma OtherSameStages(db: Db, step: Step, after: Db)
    requires Inv(db) && Next(db, step, after)
    requires !QueueStep(step) && !step.Creating? && !step.Advancing?
    ensures SameStages(db.runs, after.runs)
  {
    forall q | 0 <= q < |db.runs| ensures q < |after.runs| && after.runs[q].stages == db.runs[q].stages {
      OtherSameStagesOf(db, step, after, q);
    }
    OtherSameStagesOf(db, step, after, 0);
  }

  lemma OtherSameStagesOf(db: Db, step: Step, after: Db, q: RunId)
    requires Inv(db) && Next(db, step, after)
    requires !QueueStep(step) && !step.Creating? && !step.Advancing?
    ensures |after.runs| == |db.runs|
    ensures q < |db.runs| ==> after.runs[q].stages == db.runs[q].stages
  {
    if step.Promoting? {
      PromoteStandings(db, step.rid, step.houses, Promote(db, step.rid, step.houses).value, q);
    } else if step.Deciding? {
      DecideStandings(db, step, after, q);
    } else if step.Cancelling? {
      CancelStandings(db, step, after, q);
    } else if step.Proposing? || step.Steering? || step.Leading? {
      SteerStandings(db, step, after, q);
    } else if step.Answering? {
      AnswerStandings(db, step, after);
      if q < |db.runs| { Safety.AnswerStages(db, step, after, q); }
    } else {
      IdleStandings(db, step, after);
    }
  }

  // Every claim, completion, failure and reap uses up budget, and nothing gives it back.
  lemma StepSpends(db: Db, step: Step, after: Db)
    requires Inv(db) && Next(db, step, after)
    ensures TotalSpent(after.runs) >= TotalSpent(db.runs) + Work(step)
  {
    if step.Claiming? {
      ClaimSpends(db, step, after);
    } else if step.Completing? {
      CompleteSpends(db, step, after);
    } else if step.Failing? {
      FailSpends(db, step, after);
    } else if step.Reaping? {
      ReapSpends(db, step, after);
    } else if step.Beating? {
      BeatSpends(db, step, after);
    } else if step.Creating? {
      CreateSpends(db, step, after);
    } else if step.Advancing? {
      AdvanceSpends(db, step, after);
    } else {
      OtherSameStages(db, step, after);
      SameStagesSpend(db.runs, after.runs);
    }
  }

  lemma TraceStepSpends(tr: Trace, i: nat)
    requires Valid(tr) && i < |tr.steps|
    ensures TotalSpent(tr.states[i + 1].runs) >= TotalSpent(tr.states[i].runs) + Work(tr.steps[i])
  {
    InvAlways(tr, i);
    StepTaken(tr, i);
    StepSpends(tr.states[i], tr.steps[i], tr.states[i + 1]);
  }

  lemma {:induction false} WorkIsSpent(tr: Trace, i: nat)
    requires Valid(tr) && i < |tr.states|
    ensures WorkOf(tr.steps[..i]) <= TotalSpent(tr.states[i].runs)
  {
    if i > 0 {
      WorkIsSpent(tr, i - 1);
      TraceStepSpends(tr, i - 1);
      assert tr.steps[..i][..i - 1] == tr.steps[..i - 1];
    }
  }

  // Over any run of the system, however long, all claims, completions, failures and reaps
  // together number at most twice the attempts its stages were ever granted.
  lemma WorkBounded(tr: Trace, i: nat)
    requires Valid(tr) && i < |tr.states|
    ensures WorkOf(tr.steps[..i]) <= TotalAllowance(tr.states[i].runs)
  {
    WorkIsSpent(tr, i);
    InvAlways(tr, i);
    TotalSpentWithin(tr.states[i].runs);
  }

  // ---- claims of one stage

  predicate IsClaimOf(step: Step, rid: RunId, k: nat) {
    step.Claiming? && step.rid == rid && step.k == k
  }

  function Claims(steps: seq<Step>, rid: RunId, k: nat): nat {
    if steps == [] then 0
    else Claims(steps[..|steps| - 1], rid, k) + if IsClaimOf(steps[|steps| - 1], rid, k) then 1 else 0
  }

  function AttemptsAt(db: Db, rid: RunId, k: nat): nat {
    if AtStage(db, rid, k) then StageAt(db, rid, k).attempts else 0
  }

  lemma ClaimCounts(db: Db, step: Step, after: Db, rid: RunId, k: nat)
    requires Inv(db) && Next(db, step, after) && IsClaimOf(step, rid, k)
    ensures AttemptsAt(after, rid, k) == AttemptsAt(db, rid, k) + 1
  {
  }

  lemma OthersCountNothing(db: Db, step: Step, after: Db, rid: RunId, k: nat)
    requires Inv(db) && Next(db, step, after) && !IsClaimOf(step, rid, k)
    ensures AttemptsAt(after, rid, k) == AttemptsAt(db, rid, k)
  {
    NextKeeps(db, step, after);
    if AtStage(db, rid, k) {
      assert RunEvolves(db.runs[rid], after.runs[rid]);
      assert Q.StageEvolves(StageAt(db, rid, k), StageAt(after, rid, k));
      if StageAt(after, rid, k).attempts > StageAt(db, rid, k).attempts {
        Safety.AttemptSource(db, step, after, rid, k);
      }
    } else if AtStage(after, rid, k) {
      NewStageUnclaimed(db, step, after, rid, k);
    }
  }

  lemma NewStageUnclaimed(db: Db, step: Step, after: Db, rid: RunId, k: nat)
    requires Inv(db) && Next(db, step, after) && !AtStage(db, rid, k) && AtStage(after, rid, k)
    ensures StageAt(after, rid, k).attempts == 0
  {
    if QueueStep(step) {
      QueueSameShape(db, step, after, rid);
    } else if step.Creating? {
      CreateSpends(db, step, after);
      CreateStandings(db, step, after);
    } else if step.Advancing? {
      AdvanceSpends(db, step, after);
    } else {
      OtherSameStages(db, step, after);
    }
  }

  lemma QueueSameShape(db: Db, step: Step, after: Db, rid: RunId)
    requires Next(db, step, after) && QueueStep(step) && rid < |after.runs|
    ensures rid < |db.runs| && |after.runs[rid].stages| == |db.runs[rid].stages|
  {
  }

  // A stage's attempt counter is the number of times it was claimed, and that is never
  // more than its retry budget.
  lemma {:induction false} ClaimsWithinBudget(tr: Trace, i: nat, rid: RunId, k: nat)
    requires Valid(tr) && i < |tr.states|
    ensures Claims(tr.steps[..i], rid, k) == AttemptsAt(tr.states[i], rid, k)
    ensures AtStage(tr.states[i], rid, k) ==> Claims(tr.steps[..i], rid, k) <= StageAt(tr.states[i], rid, k).maxAttempts
  {
    InvAlways(tr, i);
    if AtStage(tr.states[i], rid, k) {
      assert Q.StageOk(StageAt(tr.states[i], rid, k));
    }
    if i > 0 {
      ClaimsWithinBudget(tr, i - 1, rid, k);
      InvAlways(tr, i - 1);
      assert tr.steps[..i][..i - 1] == tr.steps[..i - 1];
      StepTaken(tr, i - 1);
      if IsClaimOf(tr.steps[i - 1], rid, k) {
        ClaimCounts(tr.states[i - 1], tr.steps[i - 1], tr.states[i], rid, k);
      } else {
        OthersCountNothing(tr.states[i - 1], tr.steps[i - 1], tr.states[i], rid, k);
      }
    }
  }
}
