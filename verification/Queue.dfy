// What each stage-queue operation does to a stage and to its run (core/db/queue.py), and
// the attempt ledger, cost and retry-budget rules that every operation keeps.
module Queue {
  import opened Domain
  import opened RunMachine
  import Backoff

  // ---- sums

  function RowCost(rows: seq<Attempt>): real {
    if rows == [] then 0.0 else RowCost(rows[..|rows| - 1]) + rows[|rows| - 1].cost
  }

  function StageCost(stages: seq<Stage>): real {
    if stages == [] then 0.0 else StageCost(stages[..|stages| - 1]) + stages[|stages| - 1].cost
  }

  // ---- eligibility and order

  // The dependency is looked up by sequence number among the run's own stages.
  predicate DependencyMet(r: Run, s: Stage) {
    || s.dependsOn.None?
    || exists j :: 0 <= j < |r.stages| && r.stages[j].seqNo == s.dependsOn.value && Satisfied(r.stages[j].status)
  }

  // An empty list does not filter.
  datatype Filter = Filter(substrates: seq<Substrate>, houses: seq<House>)

  predicate Passes(s: Stage, f: Filter) {
    (f.substrates == [] || s.substrate in f.substrates) && (f.houses == [] || s.house in f.houses)
  }

  predicate Claimable(r: Run, s: Stage, now: Time, f: Filter) {
    && s.status.Queued?
    && s.availableAt <= now
    && r.status.Running?
    && DependencyMet(r, s)
    && Passes(s, f)
  }

  predicate Eligible(runs: seq<Run>, rid: RunId, k: nat, now: Time, f: Filter) {
    && rid < |runs| && k < |runs[rid].stages|
    && Claimable(runs[rid], runs[rid].stages[k], now, f)
  }

  // ORDER BY priority DESC, created_at, seq.
  predicate Precedes(r1: Run, s1: Stage, r2: Run, s2: Stage) {
    || r1.priority > r2.priority
    || (r1.priority == r2.priority
        && (r1.createdAt < r2.createdAt || (r1.createdAt == r2.createdAt && s1.seqNo < s2.seqNo)))
  }

  // A stage the claim query may return: eligible, and no eligible stage sorts before it.
  ghost predicate IsFirst(runs: seq<Run>, rid: RunId, k: nat, now: Time, f: Filter) {
    && Eligible(runs, rid, k, now, f)
    && forall r: RunId, j: nat | Eligible(runs, r, j, now, f) ::
         !Precedes(runs[r], runs[r].stages[j], runs[rid], runs[rid].stages[k])
  }

  // ---- one stage

  // The attempt row that is still running, if any.
  function RunningRow(rows: seq<Attempt>): (i: Option<nat>)
    ensures i.Some? ==> i.value < |rows| && rows[i.value].status.Running?
    ensures i.None? ==> forall j | 0 <= j < |rows| :: !rows[j].status.Running?
  {
    if rows == [] then None
    else if rows[|rows| - 1].status.Running? then Some(|rows| - 1)
    else RunningRow(rows[..|rows| - 1])
  }

  function Claimed(s: Stage, worker: Worker, now: Time, lease: real): Stage {
    s.(status := StageStatus.Running,
       claimedBy := Some(worker),
       claimedAt := Some(now),
       leaseExpiresAt := Some(now + lease),
       attempts := s.attempts + 1,
       rows := s.rows + [Attempt(s.attempts + 1, AttemptStatus.Running, worker, 0.0, None)])
  }

  function Released(s: Stage): Stage {
    s.(claimedBy := None, claimedAt := None, leaseExpiresAt := None)
  }

  // Close the running attempt row if there is one; the cost is added either way.
  function CloseAttempt(s: Stage, status: AttemptStatus, cost: real, kill: Option<string>): Stage {
    var i := RunningRow(s.rows);
    var rows :=
      if i.None? then s.rows
      else
        var row := s.rows[i.value];
        s.rows[i.value := row.(status := status, cost := cost,
                               killReason := if kill.Some? then kill else row.killReason)];
    s.(rows := rows, cost := s.cost + cost)
  }

  // None: the stage machine raises, because the stage is not running.
  function Completed(s: Stage, cost: real, result: StageResult): Option<Stage> {
    var change := StageTransition(s.status, Complete, s.attempts, s.maxAttempts);
    if change.None? then None
    else Some(Released(CloseAttempt(s, AttemptStatus.Succeeded, cost, None).(status := change.value.to,
        result := Some(result))))
  }

  // The retry branch asks the stage machine; the other branch sets failed outright.
  function FailedAttempt(
    s: Stage, cost: real, retryable: bool, kill: Option<string>, retryAt: Time, now: Time): Option<Stage>
  {
    var closed := CloseAttempt(s, AttemptStatus.Failed, cost, kill);
    if retryable && s.attempts < s.maxAttempts then
      var change := StageTransition(s.status, FailRetryable, s.attempts, s.maxAttempts);
      if change.None? then None
      else
        Some(Released(closed.(status := change.value.to,
                              availableAt := if change.value.setsBackoff then retryAt else now)))
    else Some(Released(closed.(status := StageStatus.Failed)))
  }

  predicate Expired(s: Stage, cutoff: Time) {
    s.status.Running? && s.leaseExpiresAt.Some? && s.leaseExpiresAt.value < cutoff
  }

  function Reaped(s: Stage, retryAt: Time): Stage {
    var i := RunningRow(s.rows);
    var rows :=
      if i.None? then s.rows
      else s.rows[i.value := s.rows[i.value].(status := AttemptStatus.Failed, killReason := Some("lease_expired"))];
    Released(
      if s.attempts < s.maxAttempts then s.(rows := rows, status := StageStatus.Queued, availableAt := retryAt)
      else s.(rows := rows, status := StageStatus.Failed))
  }

  function RetryAt(s: Stage, now: Time, p: Backoff.Policy, factor: real): Time {
    now + Backoff.Seconds(s.attempts, p, factor)
  }

  // ---- its run

  function WithStage(r: Run, k: nat, s: Stage): Run
    requires k < |r.stages|
  {
    r.(stages := r.stages[k := s])
  }

  function RolledUp(r: Run): Run {
    r.(cost := StageCost(r.stages))
  }

  // ---- the rules a stage obeys

  // Attempt rows are numbered 1..attempts, at most the last one is running, and the
  // stage is running exactly when that row is and exactly when it is claimed and leased.
  ghost predicate LedgerOk(s: Stage) {
    && |s.rows| == s.attempts
    && (forall i | 0 <= i < |s.rows| :: s.rows[i].no == i + 1)
    && (forall i | 0 <= i < |s.rows| - 1 :: !s.rows[i].status.Running?)
    && (s.status.Running? <==> |s.rows| > 0 && s.rows[|s.rows| - 1].status.Running?)
    && (s.status.Running? <==> s.claimedBy.Some?)
    && (s.status.Running? <==> s.claimedAt.Some?)
    && (s.status.Running? <==> s.leaseExpiresAt.Some?)
  }

  ghost predicate CostOk(s: Stage) {
    && s.cost == RowCost(s.rows)
    && (s.status.Running? && |s.rows| > 0 ==> s.rows[|s.rows| - 1].cost == 0.0)
  }

  ghost predicate BudgetOk(s: Stage) {
    && 1 <= s.maxAttempts && s.attempts <= s.maxAttempts
    && (s.status.Queued? ==> s.attempts < s.maxAttempts)
  }

  // No caller ever skips a stage, and a result is stored exactly by completion.
  ghost predicate StageOk(s: Stage) {
    && LedgerOk(s) && CostOk(s) && BudgetOk(s)
    && !s.status.Skipped?
    && (s.status.Succeeded? <==> s.result.Some?)
  }

  lemma RowCostAppend(rows: seq<Attempt>, a: Attempt)
    ensures RowCost(rows + [a]) == RowCost(rows) + a.cost
  {
    assert (rows + [a])[..|rows|] == rows;
  }

  lemma RowCostLast(rows: seq<Attempt>, a: Attempt)
    requires |rows| > 0
    ensures RowCost(rows[|rows| - 1 := a]) == RowCost(rows) - rows[|rows| - 1].cost + a.cost
  {
    assert rows[|rows| - 1 := a][..|rows| - 1] == rows[..|rows| - 1];
  }

  lemma ClaimKeeps(s: Stage, worker: Worker, now: Time, lease: real)
    requires StageOk(s) && s.status.Queued?
    ensures StageOk(Claimed(s, worker, now, lease))
  {
    RowCostAppend(s.rows, Attempt(s.attempts + 1, AttemptStatus.Running, worker, 0.0, None));
  }

  lemma CloseKeepsCost(s: Stage, status: AttemptStatus, cost: real, kill: Option<string>)
    requires StageOk(s) && s.status.Running?
    ensures var c := CloseAttempt(s, status, cost, kill);
            && |c.rows| == |s.rows| && c.cost == RowCost(c.rows)
            && c.rows[|s.rows| - 1].status == status
            && (forall i | 0 <= i < |c.rows| :: c.rows[i].no == i + 1)
            && (forall i | 0 <= i < |c.rows| - 1 :: !c.rows[i].status.Running?)
  {
    assert RunningRow(s.rows) == Some(|s.rows| - 1);
    var c := CloseAttempt(s, status, cost, kill);
    RowCostLast(s.rows, c.rows[|s.rows| - 1]);
  }

  lemma CompleteKeeps(s: Stage, cost: real, result: StageResult)
    requires StageOk(s) && Completed(s, cost, result).Some?
    ensures StageOk(Completed(s, cost, result).value)
  {
    CloseKeepsCost(s, AttemptStatus.Succeeded, cost, None);
  }

  lemma FailKeeps(s: Stage, cost: real, retryable: bool, kill: Option<string>, retryAt: Time, now: Time)
    requires StageOk(s) && s.status.Running?
    ensures var f := FailedAttempt(s, cost, retryable, kill, retryAt, now); f.Some? && StageOk(f.value)
  {
    CloseKeepsCost(s, AttemptStatus.Failed, cost, kill);
  }

  lemma ReapKeeps(s: Stage, retryAt: Time)
    requires StageOk(s) && s.status.Running?
    ensures StageOk(Reaped(s, retryAt)) && Reaped(s, retryAt).cost == s.cost
  {
    assert RunningRow(s.rows) == Some(|s.rows| - 1);
    RowCostLast(s.rows, s.rows[|s.rows| - 1].(status := AttemptStatus.Failed, killReason := Some("lease_expired")));
  }

  // Failing a stage that is not running is accepted whenever no retry is taken, and then
  // its cost is charged with no attempt row to show for it: the ledger still balances
  // if and only if that cost is zero.
  lemma FailOffContractBalancesIff(
    s: Stage, cost: real, retryable: bool, kill: Option<string>, retryAt: Time, now: Time)
    requires StageOk(s) && !s.status.Running?
    ensures var f := FailedAttempt(s, cost, retryable, kill, retryAt, now);
            && (f.None? <==> retryable && s.attempts < s.maxAttempts)
            && (f.Some? ==> (f.value.cost == RowCost(f.value.rows) <==> cost == 0.0))
  {
  }

  // The concrete loss: a succeeded stage is turned into a failed one that claims to have
  // cost one dollar more than its attempts did.
  lemma FailOffContractExample()
    ensures exists s: Stage, at: Time ::
              && StageOk(s) && s.status.Succeeded?
              && var f := FailedAttempt(s, 1.0, false, None, at, at);
                 f.Some? && f.value.status.Failed? && f.value.cost != RowCost(f.value.rows)
  {
    var row := Attempt(1, AttemptStatus.Succeeded, "w", 0.0, None);
    var s := Stage(1, Author, "h", Harness, StageStatus.Succeeded, None, 0.0, None, None, None,
                   1, 1, Some(EmptyResult), 0.0, [row]);
    assert RowCost([row]) == 0.0 by { RowCostAppend([], row); assert [] + [row] == [row]; }
    assert StageOk(s);
    FailOffContractBalancesIff(s, 1.0, false, None, 0.0, 0.0);
    var f := FailedAttempt(s, 1.0, false, None, 0.0, 0.0);
    assert f.Some? && f.value.status.Failed? && f.value.cost != RowCost(f.value.rows);
  }

  // ---- how a stage may evolve

  ghost predicate StageEvolves(s: Stage, t: Stage) {
    && t.seqNo == s.seqNo && t.role == s.role && t.house == s.house && t.substrate == s.substrate
    && t.dependsOn == s.dependsOn && t.maxAttempts == s.maxAttempts
    && s.attempts <= t.attempts
    && (StageTerminal(s.status) ==> t == s)
  }

  // ---- work left

  // Claiming and finishing an attempt each cost one unit of a budget of 2 * maxAttempts.
  function Potential(s: Stage): int {
    if s.status.Queued? then 2 * (s.maxAttempts - s.attempts)
    else if s.status.Running? then 2 * (s.maxAttempts - s.attempts) + 1
    else 0
  }

  function PotentialOf(stages: seq<Stage>): int {
    if stages == [] then 0 else PotentialOf(stages[..|stages| - 1]) + Potential(stages[|stages| - 1])
  }

  function AllowanceOf(stages: seq<Stage>): int {
    if stages == [] then 0 else AllowanceOf(stages[..|stages| - 1]) + 2 * stages[|stages| - 1].maxAttempts
  }

  lemma PotentialBounds(s: Stage)
    requires StageOk(s)
    ensures 0 <= Potential(s) <= 2 * s.maxAttempts
    ensures s.status.Running? ==> Potential(s) >= 1
    ensures s.status.Queued? ==> Potential(s) >= 2
  {
  }

  // Every claim, completion, failure and reap uses up at least one unit.
  lemma EveryOperationUsesBudget(s: Stage, worker: Worker, lease: real, cost: real, result: StageResult,
                                 retryable: bool, kill: Option<string>, at: Time, now: Time)
    requires StageOk(s)
    ensures s.status.Queued? ==> Potential(Claimed(s, worker, now, lease)) == Potential(s) - 1
    ensures s.status.Running? ==>
              && Potential(Completed(s, cost, result).value) < Potential(s)
              && Potential(FailedAttempt(s, cost, retryable, kill, at, now).value) < Potential(s)
              && Potential(Reaped(s, at)) < Potential(s)
  {
  }

  lemma {:induction false} PotentialUpdate(stages: seq<Stage>, k: nat, s: Stage)
    requires k < |stages|
    ensures PotentialOf(stages[k := s]) == PotentialOf(stages) - Potential(stages[k]) + Potential(s)
  {
    var n := |stages| - 1;
    if k == n {
      assert stages[k := s][..n] == stages[..n];
    } else {
      assert stages[k := s][..n] == stages[..n][k := s];
      PotentialUpdate(stages[..n], k, s);
    }
  }

  lemma {:induction false} AllowanceUpdate(stages: seq<Stage>, k: nat, s: Stage)
    requires k < |stages| && s.maxAttempts == stages[k].maxAttempts
    ensures AllowanceOf(stages[k := s]) == AllowanceOf(stages)
  {
    var n := |stages| - 1;
    if k == n {
      assert stages[k := s][..n] == stages[..n];
    } else {
      assert stages[k := s][..n] == stages[..n][k := s];
      AllowanceUpdate(stages[..n], k, s);
    }
  }

  lemma {:induction false} PotentialNonNegative(stages: seq<Stage>)
    requires forall i | 0 <= i < |stages| :: StageOk(stages[i])
    ensures 0 <= PotentialOf(stages) <= AllowanceOf(stages)
  {
    if stages != [] {
      PotentialNonNegative(stages[..|stages| - 1]);
      PotentialBounds(stages[|stages| - 1]);
    }
  }

  lemma {:induction false} StageCostUpdate(stages: seq<Stage>, k: nat, s: Stage)
    requires k < |stages| && s.cost == stages[k].cost
    ensures StageCost(stages[k := s]) == StageCost(stages)
  {
    var n := |stages| - 1;
    if k == n {
      assert stages[k := s][..n] == stages[..n];
    } else {
      assert stages[k := s][..n] == stages[..n][k := s];
      StageCostUpdate(stages[..n], k, s);
    }
  }
}
