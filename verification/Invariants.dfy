// What every reachable state satisfies: rules of a single run, then the rules that tie
// runs, locks, coverages, their logs, the outbox and the prediction ledger together.
module Invariants {
  import opened Domain
  import opened Protocol
  import C = CoverageMachine
  import P = Predictions
  import Q = Queue

  // ---- one run

  // Stages are numbered from one; all but the first wait for an earlier stage.
  ghost predicate GraphOk(r: Run) {
    && |r.stages| >= 1
    && (forall k | 0 <= k < |r.stages| :: r.stages[k].seqNo == k + 1)
    && (forall k | 0 <= k < |r.stages| ::
          if k == 0 then r.stages[k].dependsOn.None?
          else r.stages[k].dependsOn.Some? && 1 <= r.stages[k].dependsOn.value <= k)
  }

  // No stage has been claimed whose dependency is not met.
  ghost predicate OrderOk(r: Run) {
    forall k | 0 <= k < |r.stages| :: r.stages[k].attempts > 0 ==> Q.DependencyMet(r, r.stages[k])
  }

  // Only an event analysis has a cross-check, it has at most one and it comes second.
  ghost predicate RolesOk(r: Run) {
    && (forall k | 0 < k < |r.stages| :: !r.stages[k].role.Author?)
    && (forall k | 0 <= k < |r.stages| :: r.stages[k].role.CrossCheck? ==> r.kind.EventAnalysis? && k == 1)
    && (r.kind.EventAnalysis? ==>
          && 1 <= |r.stages| <= 2 && r.stages[0].role.Author?
          && (|r.stages| == 2 ==> r.stages[1].role.CrossCheck?))
  }

  ghost predicate AllSatisfied(r: Run) {
    forall k | 0 <= k < |r.stages| :: Satisfied(r.stages[k].status)
  }

  // What an open or answered gate says about its run.
  ghost predicate GateOk(r: Run, g: Gate) {
    match g.kind
    case InitiationDecision =>
      && r.kind.Initiation? && AllSatisfied(r) && !OverBudget(r)
      && g.allowed == DECISION_GATE.allowed
    case BudgetCap =>
      && g.allowed == BUDGET_GATE.allowed
      && (r.status.WaitingPm? || r.status.Cancelled?)
  }

  ghost predicate GatesOk(r: Run) {
    && |r.gates| <= 1
    && (r.status.Queued? || r.status.Running? ==> r.gates == [])
    && (r.status.WaitingPm? ==> |r.gates| == 1)
    && (forall g | 0 <= g < |r.gates| :: GateOk(r, r.gates[g]))
    && (r.status.Succeeded? ==> AllSatisfied(r) && !OverBudget(r))
    && (r.status.Succeeded? && r.kind.Initiation? ==>
        |r.gates| == 1 && r.gates[0].kind.InitiationDecision? && r.gates[0].state.Answered?)
    && (r.status.Failed? ==> AnyFailed(r))
  }

  ghost predicate StagesOk(r: Run) {
    && (forall k | 0 <= k < |r.stages| :: Q.StageOk(r.stages[k]))
    && r.cost == Q.StageCost(r.stages)
  }

  ghost predicate RunOk(r: Run) {
    && StagesOk(r) && GraphOk(r) && OrderOk(r) && RolesOk(r) && GatesOk(r)
  }

  // ---- how a run may evolve

  ghost predicate StatusEvolves(s: RunStatus, t: RunStatus) {
    && (RunTerminal(s) ==> t == s)
    && (s.WaitingPm? ==> t.WaitingPm? || t.Succeeded? || t.Cancelled?)
  }

  ghost predicate RunEvolves(r: Run, t: Run) {
    && t.coverage == r.coverage && t.kind == r.kind && t.priority == r.priority
    && t.createdAt == r.createdAt && t.budgetCap == r.budgetCap && t.leadHouse == r.leadHouse
    && StatusEvolves(r.status, t.status)
    && |r.stages| <= |t.stages|
    && (forall k | 0 <= k < |r.stages| :: Q.StageEvolves(r.stages[k], t.stages[k]))
    && |r.gates| <= |t.gates|
    && (forall g | 0 <= g < |r.gates| ::
          && t.gates[g].kind == r.gates[g].kind
          && (r.gates[g].state.Answered? ==> t.gates[g].state.Answered?)
          && (t.gates[g].state.Open? ==> r.gates[g].state.Open?))
  }

  ghost predicate RunsEvolve(before: seq<Run>, after: seq<Run>) {
    && |before| <= |after|
    && forall i | 0 <= i < |before| :: RunEvolves(before[i], after[i])
  }

  // ---- the tables together

  ghost predicate RunsOk(runs: seq<Run>) {
    forall i | 0 <= i < |runs| :: RunOk(runs[i])
  }

  predicate HoldsTicker(r: Run) {
    Mutates(r.kind) && (r.status.Running? || r.status.WaitingPm?)
  }

  // The per-ticker lock: its owner is an unfinished mutating run on that coverage, and
  // every mutating run that is running or waiting owns the lock of its coverage.
  ghost predicate LocksOk(runs: seq<Run>, locks: map<CoverageId, RunId>) {
    && (forall c | c in locks ::
          && locks[c] < |runs| && runs[locks[c]].coverage == c
          && Mutates(runs[locks[c]].kind) && !RunTerminal(runs[locks[c]].status))
    && (forall i | 0 <= i < |runs| && HoldsTicker(runs[i]) ::
          runs[i].coverage in locks && locks[runs[i].coverage] == i)
  }

  ghost predicate CoverageOk(cov: Coverage) {
    && C.Chain(cov.log)
    && cov.state == cov.log[|cov.log| - 1].to
    && LeadConstraint(cov)
  }

  ghost predicate CoveragesOk(coverages: seq<Coverage>) {
    forall c | 0 <= c < |coverages| :: CoverageOk(coverages[c])
  }

  // Foreign keys point at rows that exist.
  ghost predicate RefsOk(runs: seq<Run>, coverages: seq<Coverage>) {
    && (forall i | 0 <= i < |runs| :: runs[i].coverage < |coverages|)
    && (forall c | 0 <= c < |coverages| :: forall i | 0 <= i < |coverages[c].log| ::
          coverages[c].log[i].run.Some? ==> coverages[c].log[i].run.value < |runs|)
  }

  // Run rid started the initiation of this coverage.
  ghost predicate Initiated(cov: Coverage, rid: RunId) {
    exists i :: 0 <= i < |cov.log| && cov.log[i].cause.ByStart? && cov.log[i].run == Some(rid)
  }

  predicate AtDecisionGate(r: Run) {
    r.status.WaitingPm? && |r.gates| == 1 && r.gates[0].kind.InitiationDecision?
  }

  // The initiation run that started a coverage and the coverage's state.
  ghost predicate InStep(r: Run, state: C.State) {
    if AtDecisionGate(r) then state.DecisionPending? else state.Initiating?
  }

  ghost predicate LockstepOk(runs: seq<Run>, coverages: seq<Coverage>, locks: map<CoverageId, RunId>) {
    forall c, rid: RunId | 0 <= c < |coverages| && rid < |runs| && Initiated(coverages[c], rid)
        && !RunTerminal(runs[rid].status) ::
      && runs[rid].kind.Initiation? && runs[rid].coverage == c
      && c in locks && locks[c] == rid
      && InStep(runs[rid], coverages[c].state)
  }

  // The run whose gate a PM decision answered.
  ghost predicate DecisionRun(r: Run, c: CoverageId) {
    r.coverage == c && r.kind.Initiation? && r.status.Succeeded?
  }

  ghost predicate DecidedOk(runs: seq<Run>, coverages: seq<Coverage>) {
    forall c | 0 <= c < |coverages| :: forall i | 0 <= i < |coverages[c].log| ::
      coverages[c].log[i].cause.ByPmDecision? ==>
        && coverages[c].log[i].run.Some? && coverages[c].log[i].run.value < |runs|
        && DecisionRun(runs[coverages[c].log[i].run.value], c)
  }

  // The coverage.state_changed events of a coverage, oldest first.
  function Changes(outbox: seq<Emission>, c: CoverageId): seq<(Option<C.State>, Option<C.Cause>, Option<RunId>)> {
    if outbox == [] then []
    else
      var e := outbox[|outbox| - 1];
      Changes(outbox[..|outbox| - 1], c)
      + if e.kind.StateChanged? && e.coverage == c then [(e.to, e.cause, e.run)] else []
  }

  function Announced(log: seq<C.LogRow>): seq<(Option<C.State>, Option<C.Cause>, Option<RunId>)> {
    seq(|log|, i requires 0 <= i < |log| => (Some(log[i].to), Some(log[i].cause), log[i].run))
  }

  // One event per log row, in the same order and saying the same.
  ghost predicate OutboxOk(outbox: seq<Emission>, coverages: seq<Coverage>) {
    && (forall i | 0 <= i < |outbox| :: outbox[i].coverage < |coverages|)
    && (forall c | 0 <= c < |coverages| :: Changes(outbox, c) == Announced(coverages[c].log))
  }

  ghost predicate LedgerOk(ledger: seq<P.Prediction>, runCount: nat) {
    && P.KeysUnique(ledger)
    && forall i | 0 <= i < |ledger| :: ledger[i].run.Ref? && ledger[i].run.id < runCount
  }

  ghost predicate Inv(db: Db) {
    && RunsOk(db.runs)
    && LocksOk(db.runs, db.locks)
    && CoveragesOk(db.coverages)
    && RefsOk(db.runs, db.coverages)
    && LockstepOk(db.runs, db.coverages, db.locks)
    && DecidedOk(db.runs, db.coverages)
    && OutboxOk(db.outbox, db.coverages)
    && LedgerOk(db.ledger, |db.runs|)
  }

  // ---- runs: what single changes keep

  lemma DependencyByPosition(r: Run, k: nat)
    requires GraphOk(r) && k < |r.stages|
    ensures Q.DependencyMet(r, r.stages[k]) <==>
              k == 0 || Satisfied(r.stages[r.stages[k].dependsOn.value - 1].status)
  {
    if k > 0 {
      var d := r.stages[k].dependsOn.value;
      assert r.stages[d - 1].seqNo == d;
    }
  }

  lemma SwapKeepsOrder(r: Run, t: Run, k: nat, s: Stage)
    requires GraphOk(r) && OrderOk(r) && k < |r.stages|
    requires t.stages == r.stages[k := s] && Q.StageEvolves(r.stages[k], s)
    requires s.attempts > 0 ==> r.stages[k].attempts > 0 || Q.DependencyMet(r, r.stages[k])
    ensures GraphOk(t) && OrderOk(t)
  {
    assert GraphOk(t);
    forall j | 0 <= j < |t.stages| && t.stages[j].attempts > 0
      ensures Q.DependencyMet(t, t.stages[j])
    {
      assert Q.DependencyMet(r, r.stages[j]);
      DependencyByPosition(r, j);
      DependencyByPosition(t, j);
    }
  }

  lemma SwapKeepsGates(r: Run, t: Run, k: nat, s: Stage)
    requires GatesOk(r) && k < |r.stages| && r.cost == Q.StageCost(r.stages)
    requires t == r.(stages := r.stages[k := s], cost := Q.StageCost(r.stages[k := s]))
    requires StageTerminal(r.stages[k].status) ==> s == r.stages[k]
    ensures GatesOk(t)
  {
    if StageTerminal(r.stages[k].status) {
      assert t.stages == r.stages && t == r;
    } else {
      assert !AllSatisfied(r) by { assert !Satisfied(r.stages[k].status); }
      if AnyFailed(r) {
        var f :| 0 <= f < |r.stages| && r.stages[f].status.Failed?;
        assert t.stages[f].status.Failed?;
      }
      forall g | 0 <= g < |t.gates| ensures GateOk(t, t.gates[g]) {
        assert GateOk(r, r.gates[g]);
      }
    }
  }

  lemma SwapKeepsRoles(r: Run, t: Run, k: nat, s: Stage)
    requires RolesOk(r) && k < |r.stages| && s.role == r.stages[k].role
    requires t.stages == r.stages[k := s] && t.kind == r.kind
    ensures RolesOk(t)
  {
    assert forall j | 0 <= j < |t.stages| :: t.stages[j].role == r.stages[j].role;
  }

  lemma SwapEvolves(r: Run, t: Run, k: nat, s: Stage)
    requires k < |r.stages| && Q.StageEvolves(r.stages[k], s)
    requires t == r.(stages := r.stages[k := s], cost := t.cost)
    ensures RunEvolves(r, t)
  {
  }

  // Replacing one stage by a legal successor of it, and rolling the cost up.
  lemma StageSwapKeeps(r: Run, k: nat, s: Stage)
    requires RunOk(r) && k < |r.stages|
    requires Q.StageOk(s) && Q.StageEvolves(r.stages[k], s)
    requires s.attempts > 0 ==> r.stages[k].attempts > 0 || Q.DependencyMet(r, r.stages[k])
    ensures RunOk(Q.RolledUp(Q.WithStage(r, k, s)))
    ensures RunEvolves(r, Q.RolledUp(Q.WithStage(r, k, s)))
  {
    var t := Q.RolledUp(Q.WithStage(r, k, s));
    SwapKeepsOrder(r, t, k, s);
    SwapKeepsGates(r, t, k, s);
    SwapKeepsRoles(r, t, k, s);
    SwapEvolves(r, t, k, s);
    assert StagesOk(t);
  }

  // Where the cost does not move, rolling it up changes nothing.
  lemma RollUpIdle(r: Run, k: nat, s: Stage)
    requires RunOk(r) && k < |r.stages| && s.cost == r.stages[k].cost
    ensures Q.RolledUp(Q.WithStage(r, k, s)) == Q.WithStage(r, k, s)
  {
    Q.StageCostUpdate(r.stages, k, s);
  }

  lemma RunEvolvesReflexive(r: Run)
    ensures RunEvolves(r, r)
  {
  }

  lemma RunEvolvesTransitive(r: Run, s: Run, t: Run)
    requires RunEvolves(r, s) && RunEvolves(s, t)
    ensures RunEvolves(r, t)
  {
    forall k | 0 <= k < |r.stages| ensures Q.StageEvolves(r.stages[k], t.stages[k]) {
      assert Q.StageEvolves(r.stages[k], s.stages[k]) && Q.StageEvolves(s.stages[k], t.stages[k]);
    }
  }
}
