// What holds in every state of every run of the system.
module Safety {
  import opened Domain
  import opened Protocol
  import opened Invariants
  import opened Lifecycle
  import opened Advancing
  import opened Sources
  import opened Traces
  import C = CoverageMachine
  import Q = Queue
  import Backoff

  // ---- the per-ticker lock

  // Two mutating runs on one coverage are never running or waiting together.
  lemma MutualExclusion(tr: Trace, i: nat, a: RunId, b: RunId)
    requires Valid(tr) && i < |tr.states|
    requires a < |tr.states[i].runs| && b < |tr.states[i].runs| && a != b
    requires HoldsTicker(tr.states[i].runs[a]) && HoldsTicker(tr.states[i].runs[b])
    ensures tr.states[i].runs[a].coverage != tr.states[i].runs[b].coverage
  {
    InvAlways(tr, i);
  }

  // The lock table is exactly right: a running or waiting mutating run owns its coverage's
  // lock, and every owner is an unfinished mutating run on that coverage.
  lemma LockTable(tr: Trace, i: nat)
    requires Valid(tr) && i < |tr.states|
    ensures LocksOk(tr.states[i].runs, tr.states[i].locks)
  {
    InvAlways(tr, i);
  }

  // A stage handed to a worker by a mutating run belongs to the run that owns the lock.
  lemma ClaimedRunOwnsLock(tr: Trace, i: nat)
    requires Valid(tr) && i < |tr.steps| && tr.steps[i].Claiming?
    ensures var db := tr.states[i]; var rid := tr.steps[i].rid;
            && rid < |db.runs| && db.runs[rid].status.Running?
            && (Mutates(db.runs[rid].kind) ==>
                  db.runs[rid].coverage in db.locks && db.locks[db.runs[rid].coverage] == rid)
  {
    InvAlways(tr, i);
    StepTaken(tr, i);
    assert Q.Eligible(tr.states[i].runs, tr.steps[i].rid, tr.steps[i].k, tr.states[i].now, tr.steps[i].filter);
  }

  // ---- progress

  // Something can be done for the run: a leased stage is in flight, or a queued stage has
  // its dependency met and is claimable as soon as its availability time has come.
  ghost predicate Workable(r: Run, k: nat) {
    && k < |r.stages|
    && (|| (r.stages[k].status.Running? && r.stages[k].leaseExpiresAt.Some?)
        || (r.stages[k].status.Queued? && Q.Claimable(r.(status := RunStatus.Running), r.stages[k],
            r.stages[k].availableAt, Q.Filter([], []))))
  }

  lemma {:induction false} FirstUnfinished(r: Run, k: nat) returns (j: nat)
    requires k < |r.stages| && !StageTerminal(r.stages[k].status)
    ensures j <= k && !StageTerminal(r.stages[j].status)
    ensures forall h | 0 <= h < j :: StageTerminal(r.stages[h].status)
    decreases k
  {
    if h :| 0 <= h < k && !StageTerminal(r.stages[h].status) {
      j := FirstUnfinished(r, h);
    } else {
      j := k;
    }
  }

  // A run with no failed stage can be worked on exactly while some stage is unfinished.
  lemma ProgressOf(r: Run)
    requires RunOk(r) && !AnyFailed(r)
    ensures (exists k :: Workable(r, k)) <==> !AllTerminal(r)
  {
    if !AllTerminal(r) {
      var k :| 0 <= k < |r.stages| && !StageTerminal(r.stages[k].status);
      var j := FirstUnfinished(r, k);
      DependencyByPosition(r, j);
      var t := r.(status := RunStatus.Running);
      DependencyByPosition(t, j);
      assert Workable(r, j);
    }
  }

  lemma Progress(tr: Trace, i: nat, rid: RunId)
    requires Valid(tr) && i < |tr.states| && rid < |tr.states[i].runs|
    requires tr.states[i].runs[rid].status.Running? && !AnyFailed(tr.states[i].runs[rid])
    ensures (exists k :: Workable(tr.states[i].runs[rid], k)) <==> !AllTerminal(tr.states[i].runs[rid])
  {
    InvAlways(tr, i);
    ProgressOf(tr.states[i].runs[rid]);
  }

  // ---- costs and attempts

  function TotalAttemptCost(stages: seq<Stage>): real {
    if stages == [] then 0.0
    else TotalAttemptCost(stages[..|stages| - 1]) + Q.RowCost(stages[|stages| - 1].rows)
  }

  lemma {:induction false} StageCostsAreAttemptCosts(stages: seq<Stage>)
    requires forall k | 0 <= k < |stages| :: Q.StageOk(stages[k])
    ensures Q.StageCost(stages) == TotalAttemptCost(stages)
  {
    if stages != [] {
      StageCostsAreAttemptCosts(stages[..|stages| - 1]);
    }
  }

  // No money appears or vanishes: a run has cost what all of its attempts have cost.
  lemma CostConserved(tr: Trace, i: nat, rid: RunId)
    requires Valid(tr) && i < |tr.states| && rid < |tr.states[i].runs|
    ensures var r := tr.states[i].runs[rid];
            && r.cost == TotalAttemptCost(r.stages)
            && (forall k | 0 <= k < |r.stages| :: r.stages[k].cost == Q.RowCost(r.stages[k].rows))
  {
    InvAlways(tr, i);
    StageCostsAreAttemptCosts(tr.states[i].runs[rid].stages);
  }

  // A reaped attempt is closed as failed with nothing charged for it, and neither the
  // stage's nor the run's cost moves.
  lemma ReapedAttemptIsFree(db: Db, rid: RunId, k: nat, p: Backoff.Policy, factor: real)
    requires Inv(db) && AtStage(db, rid, k) && StageAt(db, rid, k).status.Running?
    ensures var after := ReapStage(db, rid, k, p, factor);
            var s := StageAt(db, rid, k);
            var t := StageAt(after, rid, k);
            && |t.rows| == |s.rows| >= 1
            && t.rows[|s.rows| - 1].status.Failed? && t.rows[|s.rows| - 1].cost == 0.0
            && t.cost == s.cost && after.runs[rid].cost == db.runs[rid].cost
  {
    var s := StageAt(db, rid, k);
    assert Q.StageOk(s);
    assert Q.RunningRow(s.rows) == Some(|s.rows| - 1);
  }

  // Attempt rows are numbered 1..attempts; a stage runs exactly when one row runs, and
  // exactly when it is claimed and leased.
  lemma AttemptLedger(tr: Trace, i: nat, rid: RunId, k: nat)
    requires Valid(tr) && i < |tr.states| && AtStage(tr.states[i], rid, k)
    ensures var s := StageAt(tr.states[i], rid, k);
            && |s.rows| == s.attempts && (forall j | 0 <= j < |s.rows| :: s.rows[j].no == j + 1)
            && (s.status.Running? <==> exists j :: 0 <= j < |s.rows| && s.rows[j].status.Running?)
            && (forall j, h | 0 <= j < h < |s.rows| :: !(s.rows[j].status.Running? && s.rows[h].status.Running?))
            && (s.status.Running? <==> s.claimedBy.Some?) && (s.status.Running? <==> s.leaseExpiresAt.Some?)
  {
    InvAlways(tr, i);
    var s := StageAt(tr.states[i], rid, k);
    assert Q.StageOk(s);
    if s.status.Running? {
      assert s.rows[|s.rows| - 1].status.Running?;
    }
  }

  // ---- gates

  // A run has no gate before it waits, exactly one while it waits, at most one ever.
  lemma GateDiscipline(tr: Trace, i: nat, rid: RunId)
    requires Valid(tr) && i < |tr.states| && rid < |tr.states[i].runs|
    ensures var r := tr.states[i].runs[rid];
            && |r.gates| <= 1
            && (r.status.Queued? || r.status.Running? ==> |r.gates| == 0)
            && (r.status.WaitingPm? ==> |r.gates| == 1)
  {
    InvAlways(tr, i);
    assert RunOk(tr.states[i].runs[rid]);
  }

  // A gate once opened stays the run's only gate for the rest of its life, and a run that
  // has waited never queues, runs or fails again.
  lemma WaitingIsFinal(tr: Trace, i: nat, j: nat, rid: RunId)
    requires Valid(tr) && i <= j < |tr.states| && rid < |tr.states[i].runs|
    ensures rid < |tr.states[j].runs|
    ensures var r := tr.states[i].runs[rid]; var t := tr.states[j].runs[rid];
            && (|r.gates| == 1 ==> |t.gates| == 1 && t.gates[0].kind == r.gates[0].kind)
            && (r.status.WaitingPm? ==> t.status.WaitingPm? || t.status.Succeeded? || t.status.Cancelled?)
            && (RunTerminal(r.status) ==> t.status == r.status)
  {
    ForwardAlways(tr, i, j);
    InvAlways(tr, j);
    assert RunEvolves(tr.states[i].runs[rid], tr.states[j].runs[rid]);
    assert RunOk(tr.states[j].runs[rid]);
  }

  // Whoever has a decision gate delivered all its work within budget.
  lemma DecisionGateMeaning(tr: Trace, i: nat, rid: RunId, g: nat)
    requires Valid(tr) && i < |tr.states| && rid < |tr.states[i].runs|
    requires g < |tr.states[i].runs[rid].gates| && tr.states[i].runs[rid].gates[g].kind.InitiationDecision?
    ensures var r := tr.states[i].runs[rid];
            r.kind.Initiation? && AllSatisfied(r) && (r.budgetCap == 0.0 || r.cost <= r.budgetCap)
  {
    InvAlways(tr, i);
    assert RunOk(tr.states[i].runs[rid]);
    assert GateOk(tr.states[i].runs[rid], tr.states[i].runs[rid].gates[g]);
  }

  // No stage is first claimed before its dependency succeeded, and a dependency once met
  // stays met.
  lemma FirstClaimAfterDependency(tr: Trace, i: nat, j: nat, rid: RunId, k: nat)
    requires Valid(tr) && i < j < |tr.states| && AtStage(tr.states[i], rid, k)
    requires StageAt(tr.states[i], rid, k).attempts == 0 && AtStage(tr.states[i + 1], rid, k)
    requires StageAt(tr.states[i + 1], rid, k).attempts > 0
    ensures tr.steps[i].Claiming? && Q.DependencyMet(tr.states[i].runs[rid], StageAt(tr.states[i], rid, k))
    ensures AtStage(tr.states[j], rid, k) && Q.DependencyMet(tr.states[j].runs[rid], StageAt(tr.states[j], rid, k))
  {
    InvAlways(tr, i);
    InvAlways(tr, j);
    StepTaken(tr, i);
    AttemptSource(tr.states[i], tr.steps[i], tr.states[i + 1], rid, k);
    ForwardAlways(tr, i, j);
    DependencyStays(tr.states[i].runs[rid], tr.states[j].runs[rid], k);
  }

  lemma DependencyStays(r: Run, t: Run, k: nat)
    requires RunOk(r) && RunOk(t) && RunEvolves(r, t) && k < |r.stages|
    requires Q.DependencyMet(r, r.stages[k])
    ensures k < |t.stages| && Q.DependencyMet(t, t.stages[k])
  {
    DependencyByPosition(r, k);
    DependencyByPosition(t, k);
    if k > 0 {
      assert Q.StageEvolves(r.stages[k], t.stages[k]);
      var d := r.stages[k].dependsOn.value - 1;
      assert Q.StageEvolves(r.stages[d], t.stages[d]);
    }
  }

  // Only a claim adds an attempt.
  lemma AttemptSource(db: Db, step: Step, after: Db, rid: RunId, k: nat)
    requires Inv(db) && Next(db, step, after) && AtStage(db, rid, k) && AtStage(after, rid, k)
    requires StageAt(after, rid, k).attempts > StageAt(db, rid, k).attempts
    ensures step.Claiming? && step.rid == rid && step.k == k
  {
    if QueueStep(step) {
      QueueAttempts(db, step, after, rid, k);
    } else if step.Promoting? {
      PromoteStandings(db, step.rid, step.houses, Promote(db, step.rid, step.houses).value, rid);
    } else if step.Advancing? {
      AdvanceStages(db, step, after, rid, k);
    } else if step.Deciding? {
      DecideStandings(db, step, after, rid);
    } else if step.Cancelling? {
      CancelStandings(db, step, after, rid);
    } else if step.Proposing? || step.Steering? || step.Leading? {
      SteerStandings(db, step, after, rid);
    } else if step.Creating? {
      CreateStandings(db, step, after);
    } else if step.Answering? {
      AnswerStages(db, step, after, rid);
    } else {
      IdleStandings(db, step, after);
    }
  }

  lemma QueueAttempts(db: Db, step: Step, after: Db, rid: RunId, k: nat)
    requires Next(db, step, after) && QueueStep(step) && AtStage(db, rid, k) && AtStage(after, rid, k)
    requires StageAt(after, rid, k).attempts > StageAt(db, rid, k).attempts
    ensures step.Claiming? && step.rid == rid && step.k == k
  {
  }

  lemma AnswerStages(db: Db, step: Step, after: Db, rid: RunId)
    requires Next(db, step, after) && step.Answering? && rid < |db.runs|
    ensures rid < |after.runs| && after.runs[rid].stages == db.runs[rid].stages
  {
  }

  lemma AdvanceStages(db: Db, step: Step, after: Db, rid: RunId, k: nat)
    requires Inv(db) && Next(db, step, after) && step.Advancing? && AtStage(db, rid, k)
    ensures AtStage(after, rid, k) && StageAt(after, rid, k) == StageAt(db, rid, k)
  {
    AdvanceStandings(db, step, after, rid);
    if step.rid == rid && db.runs[rid].status.Running? {
      AdvanceOutcome(db, rid, step.pass, after);
      ConcludeOutcome(AfterScan(db, rid, ScanOf(db, rid, step.pass).value), rid, after);
      ScanKeeps(db, rid, step.pass);
    }
  }

  // ---- coverages

  // An initiation run and the coverage it started, in every state of its life.
  lemma Lockstep(tr: Trace, i: nat, c: CoverageId, rid: RunId)
    requires Valid(tr) && i < |tr.states|
    requires c < |tr.states[i].coverages| && rid < |tr.states[i].runs| && Initiated(tr.states[i].coverages[c], rid)
    ensures var r := tr.states[i].runs[rid]; var state := tr.states[i].coverages[c].state;
            && (r.status.Queued? || r.status.Running? ==> state.Initiating?)
            && (AtDecisionGate(r) ==> state.DecisionPending?)
            && (r.status.WaitingPm? && !AtDecisionGate(r) ==>
                  |r.gates| == 1 && r.gates[0].kind.BudgetCap? && state.Initiating?)
  {
    InvAlways(tr, i);
    var r := tr.states[i].runs[rid];
    GatesOf(tr.states[i], rid);
    if !RunTerminal(r.status) {
      InStepNow(tr.states[i], c, rid);
    }
  }

  lemma GatesOf(db: Db, rid: RunId)
    requires Inv(db) && rid < |db.runs|
    ensures GatesOk(db.runs[rid])
  {
    assert RunOk(db.runs[rid]);
  }

  lemma AdvanceFailure(db: Db, rid: RunId, pass: Pass, after: Db)
    requires Inv(db) && FundOk(pass.fund) && rid < |db.runs| && db.runs[rid].status.Running?
        && db.runs[rid].kind.Initiation?
    requires db.coverages[db.runs[rid].coverage].state.Initiating?
    requires Advance(db, rid, pass) == Some(after) && rid < |after.runs| && after.runs[rid].status.Failed?
    ensures var c := db.runs[rid].coverage; c < |after.coverages| && after.coverages[c].state == C.State.Failed
  {
    var mid := AfterScan(db, rid, ScanOf(db, rid, pass).value);
    AdvanceOutcome(db, rid, pass, after);
    ScanKeeps(db, rid, pass);
    ConcludeOutcome(mid, rid, after);
    FailedTogetherState(mid, rid);
  }

  lemma FailedTogetherState(db: Db, rid: RunId)
    requires rid < |db.runs| && db.runs[rid].coverage < |db.coverages|
    ensures var c := db.runs[rid].coverage;
            |FailedTogether(db, rid).coverages| == |db.coverages|
                && FailedTogether(db, rid).coverages[c].state == C.State.Failed
  {
  }

  lemma FailureSource(db: Db, step: Step, after: Db, rid: RunId)
    requires Inv(db) && Next(db, step, after) && rid < |db.runs|
    requires !RunTerminal(db.runs[rid].status) && rid < |after.runs| && after.runs[rid].status.Failed?
    ensures step.Advancing? && step.rid == rid && db.runs[rid].status.Running?
  {
    StandingSource(db, step, after, rid);
    if step.Deciding? {
      DecideStandings(db, step, after, rid);
    }
  }

  lemma InStepNow(db: Db, c: CoverageId, rid: RunId)
    requires LockstepOk(db.runs, db.coverages, db.locks)
    requires c < |db.coverages| && rid < |db.runs| && Initiated(db.coverages[c], rid)
    requires !RunTerminal(db.runs[rid].status)
    ensures db.runs[rid].kind.Initiation? && db.runs[rid].coverage == c && InStep(db.runs[rid], db.coverages[c].state)
  {
  }

  // The run's failure fails its coverage in the same step.
  lemma FailureTakesCoverage(tr: Trace, i: nat, c: CoverageId, rid: RunId)
    requires Valid(tr) && i < |tr.steps|
    requires c < |tr.states[i].coverages| && rid < |tr.states[i].runs| && Initiated(tr.states[i].coverages[c], rid)
    requires !RunTerminal(tr.states[i].runs[rid].status) && rid < |tr.states[i + 1].runs|
        && tr.states[i + 1].runs[rid].status.Failed?
    ensures c < |tr.states[i + 1].coverages| && tr.states[i + 1].coverages[c].state == C.State.Failed
  {
    var db, step, after := tr.states[i], tr.steps[i], tr.states[i + 1];
    InvAlways(tr, i);
    StepTaken(tr, i);
    FailureSource(db, step, after, rid);
    InStepNow(db, c, rid);
    AdvanceFailure(db, rid, step.pass, after);
  }

  // Only a decision leaves decision_pending, and it ends the run at whose gate it was made
  // in the same step; while a run waits at that gate it is that run.
  lemma OnlyDecisionLeavesPending(tr: Trace, i: nat, c: CoverageId)
    requires Valid(tr) && i < |tr.steps| && c < |tr.states[i].coverages|
    requires tr.states[i].coverages[c].state.DecisionPending?
    requires c < |tr.states[i + 1].coverages| && tr.states[i + 1].coverages[c] != tr.states[i].coverages[c]
    ensures tr.steps[i].Deciding? && tr.steps[i].gateRun.Some?
    ensures var g := tr.steps[i].gateRun.value;
            && g < |tr.states[i].runs| && Undecided(tr.states[i].runs[g], c)
            && g < |tr.states[i + 1].runs| && tr.states[i + 1].runs[g].status.Succeeded?
            && (forall rid: RunId | rid < |tr.states[i].runs| && Initiated(tr.states[i].coverages[c], rid)
                                    && !RunTerminal(tr.states[i].runs[rid].status) :: rid == g)
  {
    var db, step, after := tr.states[i], tr.steps[i], tr.states[i + 1];
    InvAlways(tr, i);
    StepTaken(tr, i);
    StateSource(db, step, after, c);
    DecideStandings(db, step, after, 0);
    assert RunOk(db.runs[step.gateRun.value]);
    assert GateOk(db.runs[step.gateRun.value], db.runs[step.gateRun.value].gates[0]);
  }

  // The log of every coverage is a chain of table entries that replays to its state, it
  // is never rewritten, and the outbox announces each of its rows exactly once, in order.
  lemma LogReplays(tr: Trace, i: nat, j: nat, c: CoverageId)
    requires Valid(tr) && i <= j < |tr.states| && c < |tr.states[i].coverages|
    ensures c < |tr.states[j].coverages| && tr.states[i].coverages[c].log <= tr.states[j].coverages[c].log
    ensures var cov := tr.states[j].coverages[c];
            && C.Chain(cov.log) && C.Replay(cov.log) == Some(Some(cov.state))
            && Changes(tr.states[j].outbox, c) == Announced(cov.log)
  {
    ForwardAlways(tr, i, j);
    InvAlways(tr, j);
    C.ChainReplays(tr.states[j].coverages[c].log);
  }

  // The run whose every stage succeeded, whose cost stayed within its cap and whose
  // decision gate the PM answered.
  ghost predicate Earned(r: Run, c: CoverageId) {
    && r.coverage == c && r.kind.Initiation? && r.status.Succeeded?
    && AllSatisfied(r) && (r.budgetCap == 0.0 || r.cost <= r.budgetCap)
    && |r.gates| == 1 && r.gates[0].kind.InitiationDecision? && r.gates[0].state.Answered?
  }

  // End to end: nothing is ever active or on the watch list, now or at any earlier point
  // of its log, unless since its last proposal an initiation was delivered and then the
  // PM decided on a run that had earned it.
  lemma LiveWasEarned(tr: Trace, i: nat, c: CoverageId, at: nat)
    requires Valid(tr) && i < |tr.states| && c < |tr.states[i].coverages|
    requires at < |tr.states[i].coverages[c].log| && C.Live(tr.states[i].coverages[c].log[at].to)
    ensures exists p: nat, d: nat, e: nat ::
              var log := tr.states[i].coverages[c].log;
              && C.LastProposal(log, p, at) && p < d < e <= at
              && log[d].cause.ByDelivery? && log[e].cause.ByPmDecision?
              && log[e].run.Some? && log[e].run.value < |tr.states[i].runs|
              && Earned(tr.states[i].runs[log[e].run.value], c)
  {
    InvAlways(tr, i);
    var db := tr.states[i];
    var log := db.coverages[c].log;
    var p, d, e := C.Milestones(log, at);
    var r := db.runs[log[e].run.value];
    assert DecisionRun(r, c) && RunOk(r);
    assert Earned(r, c);
  }

  // What the table's check constraint is there for, and enforces by refusing a delivery.
  lemma LiveHasLead(tr: Trace, i: nat, c: CoverageId)
    requires Valid(tr) && i < |tr.states| && c < |tr.states[i].coverages|
    requires var s := tr.states[i].coverages[c].state; s.DecisionPending? || C.Live(s)
    ensures tr.states[i].coverages[c].lead.Some?
  {
    InvAlways(tr, i);
  }
}
