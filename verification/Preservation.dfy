// Every step of the protocol keeps the invariants and only ever moves rows forward.
module Preservation {
  import opened Domain
  import opened Protocol
  import opened Invariants
  import opened Effects
  import opened Tables
  import C = CoverageMachine
  import P = Predictions
  import Q = Queue
  import Backoff

  // Logs are append-only and no coverage is lost.
  ghost predicate LogsGrow(before: seq<Coverage>, after: seq<Coverage>) {
    |before| <= |after| && forall c | 0 <= c < |before| :: before[c].log <= after[c].log
  }

  ghost predicate Forward(db: Db, after: Db) {
    && RunsEvolve(db.runs, after.runs)
    && LogsGrow(db.coverages, after.coverages)
    && P.Preserves(db.ledger, after.ledger)
    && db.now <= after.now
  }

  lemma ForwardReflexive(db: Db)
    ensures Forward(db, db)
  {
    forall i | 0 <= i < |db.runs| ensures RunEvolves(db.runs[i], db.runs[i]) {
      RunEvolvesReflexive(db.runs[i]);
    }
  }

  lemma ForwardTransitive(a: Db, b: Db, c: Db)
    requires Forward(a, b) && Forward(b, c)
    ensures Forward(a, c)
  {
    forall i | 0 <= i < |a.runs| ensures RunEvolves(a.runs[i], c.runs[i]) {
      RunEvolvesTransitive(a.runs[i], b.runs[i], c.runs[i]);
    }
    forall d | 0 <= d < |a.coverages| ensures a.coverages[d].log <= c.coverages[d].log {
      assert a.coverages[d].log <= b.coverages[d].log <= c.coverages[d].log;
    }
  }

  // ---- steps that leave a run where it stands

  lemma SwapRunKeeps(db: Db, rid: RunId, t: Run)
    requires Inv(db) && rid < |db.runs| && RunOk(t) && RunEvolves(db.runs[rid], t)
    requires t.status == db.runs[rid].status && |t.gates| == |db.runs[rid].gates|
    ensures Inv(SetRun(db, rid, t)) && Forward(db, SetRun(db, rid, t))
  {
    SwapEvolvesAll(db.runs, rid, t);
    LocksSwap(db.runs, db.locks, rid, t);
    LockstepSwap(db.runs, db.coverages, db.locks, rid, t);
    DecidedEvolves(db.runs, db.runs[rid := t], db.coverages);
    RefsSwap(db.runs, db.coverages, rid, t);
  }

  lemma StageStepKeeps(db: Db, rid: RunId, k: nat, s: Stage)
    requires Inv(db) && AtStage(db, rid, k)
    requires Q.StageOk(s) && Q.StageEvolves(StageAt(db, rid, k), s)
    requires s.attempts > 0 ==> StageAt(db, rid, k).attempts > 0 || Q.DependencyMet(db.runs[rid], StageAt(db, rid, k))
    ensures Inv(SetStageRolledUp(db, rid, k, s)) && Forward(db, SetStageRolledUp(db, rid, k, s))
    ensures s.cost == StageAt(db, rid, k).cost ==> SetStage(db, rid, k, s) == SetStageRolledUp(db, rid, k, s)
  {
    StageSwapKeeps(db.runs[rid], k, s);
    SwapRunKeeps(db, rid, Q.RolledUp(Q.WithStage(db.runs[rid], k, s)));
    if s.cost == StageAt(db, rid, k).cost {
      RollUpIdle(db.runs[rid], k, s);
    }
  }

  lemma ClaimKeeps(db: Db, rid: RunId, k: nat, worker: Worker, lease: real, filter: Q.Filter)
    requires Inv(db) && Q.Eligible(db.runs, rid, k, db.now, filter)
    ensures var after := SetStage(db, rid, k, Q.Claimed(StageAt(db, rid, k), worker, db.now, lease));
            Inv(after) && Forward(db, after)
  {
    var s := StageAt(db, rid, k);
    Q.ClaimKeeps(s, worker, db.now, lease);
    StageStepKeeps(db, rid, k, Q.Claimed(s, worker, db.now, lease));
  }

  lemma BeatKeeps(s: Stage, lease: Time)
    requires Q.StageOk(s) && s.status.Running?
    ensures Q.StageOk(s.(leaseExpiresAt := Some(lease))) && Q.StageEvolves(s, s.(leaseExpiresAt := Some(lease)))
  {
  }

  lemma BeatStepKeeps(db: Db, rid: RunId, k: nat, s: Stage)
    requires Inv(db) && AtStage(db, rid, k) && StageAt(db, rid, k).status.Running?
    requires s == StageAt(db, rid, k).(leaseExpiresAt := s.leaseExpiresAt) && s.leaseExpiresAt.Some?
    ensures Inv(SetStage(db, rid, k, s)) && Forward(db, SetStage(db, rid, k, s))
  {
    BeatKeeps(StageAt(db, rid, k), s.leaseExpiresAt.value);
    StageStepKeeps(db, rid, k, s);
  }

  lemma HeartbeatKeeps(db: Db, rid: RunId, k: nat, worker: Worker, lease: real, after: Db)
    requires Inv(db) && AtStage(db, rid, k) && after == Heartbeat(db, rid, k, worker, lease)
    ensures Inv(after) && Forward(db, after)
  {
    if after == db {
      ForwardReflexive(db);
      assert Forward(db, after);
      assert Inv(after);
    } else {
      var s := StageAt(db, rid, k).(leaseExpiresAt := Some(db.now + lease));
      assert StageAt(db, rid, k).status.Running?;
      assert after == SetStage(db, rid, k, s);
      BeatStepKeeps(db, rid, k, s);
    }
  }

  lemma CompleteKeeps(db: Db, rid: RunId, k: nat, cost: real, result: StageResult, after: Db)
    requires Inv(db) && AtStage(db, rid, k) && CompleteStage(db, rid, k, cost, result) == Some(after)
    ensures Inv(after) && Forward(db, after)
  {
    var s := StageAt(db, rid, k);
    Q.CompleteKeeps(s, cost, result);
    StageStepKeeps(db, rid, k, Q.Completed(s, cost, result).value);
  }

  lemma FailKeeps(
    db: Db, rid: RunId, k: nat, cost: real, retryable: bool, kill: Option<string>, p: Backoff.Policy, factor: real,
    after: Db)
    requires Inv(db) && AtStage(db, rid, k) && StageAt(db, rid, k).status.Running?
    requires FailStage(db, rid, k, cost, retryable, kill, p, factor) == Some(after)
    ensures Inv(after) && Forward(db, after)
  {
    var s := StageAt(db, rid, k);
    var at := Q.RetryAt(s, db.now, p, factor);
    Q.FailKeeps(s, cost, retryable, kill, at, db.now);
    StageStepKeeps(db, rid, k, Q.FailedAttempt(s, cost, retryable, kill, at, db.now).value);
  }

  lemma ReapKeeps(db: Db, rid: RunId, k: nat, p: Backoff.Policy, factor: real)
    requires Inv(db) && AtStage(db, rid, k) && StageAt(db, rid, k).status.Running?
    ensures Inv(ReapStage(db, rid, k, p, factor)) && Forward(db, ReapStage(db, rid, k, p, factor))
  {
    var s := StageAt(db, rid, k);
    var at := Q.RetryAt(s, db.now, p, factor);
    Q.ReapKeeps(s, at);
    StageStepKeeps(db, rid, k, Q.Reaped(s, at));
  }

  lemma GateAnswerKeeps(r: Run, g: nat, gate: Gate)
    requires RunOk(r) && g < |r.gates|
    requires gate == r.gates[g].(state := Answered, answer := gate.answer, key := gate.key)
    ensures var t := r.(gates := r.gates[g := gate]); RunOk(t) && RunEvolves(r, t)
  {
    var t := r.(gates := r.gates[g := gate]);
    forall h | 0 <= h < |t.gates| ensures GateOk(t, t.gates[h]) {
      assert GateOk(r, r.gates[h]);
    }
    RestatusKeeps(r, t);
  }

  lemma AnswerKeeps(db: Db, rid: RunId, g: nat, answer: string, key: string, after: Db)
    requires Inv(db) && AnswerGate(db, rid, g, answer, key) == Some(after)
    ensures Inv(after) && Forward(db, after)
  {
    if after == db {
      ForwardReflexive(db);
    } else {
      var r := db.runs[rid];
      GateAnswerKeeps(r, g, AnsweredBy(r.gates[g], answer).(key := Some(key)));
      SwapRunKeeps(db, rid, after.runs[rid]);
    }
  }

  // ---- steps that touch no run

  lemma EditKeeps(db: Db, id: nat, fields: seq<(P.Column, P.Value)>)
    requires Inv(db) && P.Update(db.ledger, id, fields).Some?
    ensures var after := db.(ledger := P.Update(db.ledger, id, fields).value); Inv(after) && Forward(db, after)
  {
    var ledger := P.Update(db.ledger, id, fields).value;
    ForwardReflexive(db);
    P.UpdatePreserves(db.ledger, id, fields);
    forall i | 0 <= i < |ledger| ensures ledger[i].run == db.ledger[i].run {
      assert P.RunRef !in P.MUTABLE;
      assert P.Get(ledger[i], P.RunRef) == P.Get(db.ledger[i], P.RunRef);
    }
  }

  lemma WaitKeeps(db: Db, until: Time)
    requires Inv(db) && until >= db.now
    ensures Inv(db.(now := until)) && Forward(db, db.(now := until))
  {
    ForwardReflexive(db);
  }

  const PROPOSED_ROW := C.LogRow(None, C.Proposed, C.ByProposal, None)

  lemma ProposedOk()
    ensures CoverageOk(Coverage(C.Proposed, None, [PROPOSED_ROW]))
  {
    assert C.Table(None, C.Propose).Some?;
    assert C.IsEntry(PROPOSED_ROW);
  }

  lemma NewCoverageRefs(runs: seq<Run>, coverages: seq<Coverage>, cov: Coverage)
    requires RefsOk(runs, coverages) && cov.log == [PROPOSED_ROW]
    ensures RefsOk(runs, coverages + [cov])
  {
  }

  lemma NewCoverageLockstep(runs: seq<Run>, coverages: seq<Coverage>, locks: map<CoverageId, RunId>, cov: Coverage)
    requires LockstepOk(runs, coverages, locks) && cov.log == [PROPOSED_ROW]
    ensures LockstepOk(runs, coverages + [cov], locks)
  {
    var next := coverages + [cov];
    forall c, q: RunId | 0 <= c < |next| && q < |runs| && Initiated(next[c], q) && !RunTerminal(runs[q].status)
      ensures c < |coverages| && next[c] == coverages[c]
    {
    }
  }

  lemma NewCoverageDecided(runs: seq<Run>, coverages: seq<Coverage>, cov: Coverage)
    requires DecidedOk(runs, coverages) && cov.log == [PROPOSED_ROW]
    ensures DecidedOk(runs, coverages + [cov])
  {
    var next := coverages + [cov];
    forall c, i | 0 <= c < |next| && 0 <= i < |next[c].log| && next[c].log[i].cause.ByPmDecision?
      ensures c < |coverages| && next[c] == coverages[c]
    {
    }
  }

  lemma ProposingKeeps(db: Db)
    requires Inv(db)
    ensures Inv(Propose(db)) && Forward(db, Propose(db))
  {
    ProposeMeaning(db);
    ForwardReflexive(db);
    var cov := Coverage(C.Proposed, None, [PROPOSED_ROW]);
    ProposedOk();
    NewCoverageRefs(db.runs, db.coverages, cov);
    NewCoverageLockstep(db.runs, db.coverages, db.locks, cov);
    NewCoverageDecided(db.runs, db.coverages, cov);
    OutboxProposes(db.outbox, db.coverages, cov, PROPOSED_ROW);
  }

  // A PM action on a coverage that no unfinished initiation has started.
  lemma SteadyLockstep(db: Db, c: CoverageId, moved: Coverage, row: C.LogRow)
    requires LockstepOk(db.runs, db.coverages, db.locks) && c < |db.coverages| && Grows(db.coverages[c], moved, row)
    requires !db.coverages[c].state.Initiating? && !db.coverages[c].state.DecisionPending? && row.run.None?
    ensures LockstepOk(db.runs, db.coverages[c := moved], db.locks)
  {
    forall q: RunId | q < |db.runs| && Initiated(moved, q) && !RunTerminal(db.runs[q].status) ensures false {
      StartedGrows(db.coverages[c], moved, row, q);
    }
    LockstepMoves(db.runs, db.coverages, db.locks, c, moved, row);
  }

  // The rules about one log row more, for a row that carries no run or a known one.
  lemma MoveRules(db: Db, c: CoverageId, moved: Coverage, row: C.LogRow)
    requires Inv(db) && c < |db.coverages| && Grows(db.coverages[c], moved, row) && CoverageOk(moved)
    requires row.run.Some? ==> row.run.value < |db.runs|
    ensures CoveragesOk(db.coverages[c := moved])
    ensures RefsOk(db.runs, db.coverages[c := moved])
    ensures OutboxOk(db.outbox + [Emission(C.StateChanged, c, row.run, Some(row.to), Some(row.cause))],
        db.coverages[c := moved])
    ensures LogsGrow(db.coverages, db.coverages[c := moved])
  {
    RefsGrow(db.runs, db.coverages, c, moved, row);
    OutboxLogs(db.outbox, db.coverages, c, moved, row);
  }

  lemma SteadyMoveKeeps(db: Db, c: CoverageId, cov: Coverage, a: C.Action)
    requires Inv(db) && c < |db.coverages| && CoverageOk(cov) && cov.log == db.coverages[c].log
    requires cov.state == db.coverages[c].state && !cov.state.Initiating? && !cov.state.DecisionPending?
    requires C.Table(Some(cov.state), a).Some? && !a.StartInitiation? && !a.RetryInitiation?
    ensures var t := C.Table(Some(cov.state), a).value;
            var after := db.(coverages := db.coverages[c := Moved(cov, t, None)],
                outbox := db.outbox + [Change(c, t, None)]);
            Inv(after) && Forward(db, after)
  {
    var t := C.Table(Some(cov.state), a).value;
    var moved := Moved(cov, t, None);
    var row := C.LogRow(Some(cov.state), t.to, t.cause, None);
    CoverageMoves(cov, a, None);
    MoveRules(db, c, moved, row);
    DecidedGrows(db.runs, db.coverages, c, moved, row);
    SteadyLockstep(db, c, moved, row);
    ForwardReflexive(db);
  }

  lemma SteerKeeps(db: Db, c: CoverageId, a: C.Action, force: bool, note: bool, hasPosition: bool, after: Db)
    requires Inv(db) && PmAction(a) && Transition(db, c, a, None, force, note, hasPosition) == Some(after)
    ensures Inv(after) && Forward(db, after)
  {
    SteerMeaning(db, c, a, force, note, hasPosition);
    SteadyMoveKeeps(db, c, db.coverages[c], a);
  }

  lemma LeadKeeps(db: Db, c: CoverageId, house: House, flags: HouseFlags, after: Db)
    requires Inv(db) && SetLead(db, c, house, flags) == Some(after)
    ensures Inv(after) && Forward(db, after)
  {
    LeadMeaning(db, c, house, flags);
    SteadyMoveKeeps(db, c, db.coverages[c].(lead := Some(house)), C.SetLead);
  }
}
