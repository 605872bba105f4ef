// The steps that create, promote, advance, decide and end runs keep the invariants.
module Lifecycle {
  import opened Domain
  import opened Protocol
  import opened Invariants
  import opened Effects
  import opened Tables
  import opened Preservation
  import C = CoverageMachine
  import P = Predictions
  import Plans = Planner
  import Q = Queue

  // ---- creation

  lemma {:induction false} FreshCost(stages: seq<Stage>)
    requires forall k | 0 <= k < |stages| :: stages[k].cost == 0.0
    ensures Q.StageCost(stages) == 0.0
  {
    if stages != [] {
      FreshCost(stages[..|stages| - 1]);
    }
  }

  lemma NewRunOk(kind: RunType, args: Plans.Args, run: Run, houses: set<House>, now: Time)
    requires Plans.Plan(kind, args).Some? && args.maxAttempts >= 1
    requires Seatable(Plans.Plan(kind, args).value, houses)
    requires run.stages == NewStages(Plans.Plan(kind, args).value, houses, now)
    requires run.kind == kind && run.status.Queued? && run.gates == [] && run.cost == 0.0
    ensures RunOk(run)
  {
    var plan := Plans.Plan(kind, args).value;
    Plans.PlanIsChain(kind, args);
    assert forall k | 0 <= k < |run.stages| :: run.stages[k] == NewStage(plan[k], now);
    FreshCost(run.stages);
    forall k | 0 <= k < |run.stages| ensures Q.StageOk(run.stages[k]) {
      assert Q.RowCost([]) == 0.0;
    }
  }

  lemma NewRunRules(db: Db, run: Run)
    requires Inv(db) && RunOk(run) && run.status.Queued? && run.coverage < |db.coverages|
    ensures Inv(db.(runs := db.runs + [run]))
    ensures RunsEvolve(db.runs, db.runs + [run])
  {
    var after := db.runs + [run];
    forall i | 0 <= i < |db.runs| ensures RunEvolves(db.runs[i], after[i]) {
      RunEvolvesReflexive(db.runs[i]);
    }
    DecidedEvolves(db.runs, after, db.coverages);
    NewRunLocks(db.runs, db.locks, run);
    NewRunLockstep(db.runs, db.coverages, db.locks, run);
  }

  lemma NewRunLocks(runs: seq<Run>, locks: map<CoverageId, RunId>, run: Run)
    requires LocksOk(runs, locks) && run.status.Queued?
    ensures LocksOk(runs + [run], locks)
  {
  }

  lemma NewRunLockstep(runs: seq<Run>, coverages: seq<Coverage>, locks: map<CoverageId, RunId>, run: Run)
    requires LockstepOk(runs, coverages, locks) && RefsOk(runs, coverages)
    ensures LockstepOk(runs + [run], coverages, locks)
  {
    forall c, q: RunId | 0 <= c < |coverages| && q <= |runs| && Initiated(coverages[c], q) ensures q < |runs| {
    }
  }

  lemma CreateKeeps(db: Db, fund: Fund, req: Request, after: Db)
    requires Inv(db) && FundOk(fund) && CreateRun(db, fund, req) == Some(after)
    ensures Inv(after) && Forward(db, after)
  {
    var args := PlanArgs(db, fund, req);
    var run := after.runs[|db.runs|];
    NewRunOk(req.kind, args, run, req.houses, db.now);
    NewRunRules(db, run);
  }

  // ---- promotion

  lemma LockstepStarts(
    runs: seq<Run>, coverages: seq<Coverage>, locks: map<CoverageId, RunId>, rid: RunId, moved: Coverage,
    row: C.LogRow)
    requires LockstepOk(runs, coverages, locks) && rid < |runs|
    requires var c := runs[rid].coverage;
             && c < |coverages| && coverages[c].state.Proposed? && c in locks && locks[c] == rid
             && Grows(coverages[c], moved, row)
    requires moved.state.Initiating? && row.run == Some(rid)
    requires runs[rid].kind.Initiation? && runs[rid].status.Running?
    ensures LockstepOk(runs, coverages[runs[rid].coverage := moved], locks)
  {
    var c := runs[rid].coverage;
    forall q: RunId | q < |runs| && Initiated(moved, q) && !RunTerminal(runs[q].status) ensures q == rid {
      StartedGrows(coverages[c], moved, row, q);
    }
    LockstepMoves(runs, coverages, locks, c, moved, row);
  }

  // What starting a run leaves as it was.
  lemma StartOutcome(db: Db, rid: RunId)
    requires rid < |db.runs|
    ensures var s := StartRun(db, rid);
            s.db == if s.ok then SetRun(db, rid, db.runs[rid].(status := RunStatus.Running)).(locks := s.db.locks)
                    else db
  {
  }

  lemma StartKeeps(db: Db, rid: RunId)
    requires Inv(db) && rid < |db.runs| && db.runs[rid].status.Queued?
    ensures var s := StartRun(db, rid);
            && Inv(s.db) && Forward(db, s.db)
            && (!s.ok ==> s.db == db)
            && (s.ok && Mutates(db.runs[rid].kind) ==>
                  db.runs[rid].coverage in s.db.locks && s.db.locks[db.runs[rid].coverage] == rid)
  {
    StartOutcome(db, rid);
    if StartRun(db, rid).ok {
      StartedTables(db, rid);
      StartedLocks(db, rid);
    } else {
      ForwardReflexive(db);
    }
  }

  // The run tables once the run has started.
  lemma StartedTables(db: Db, rid: RunId)
    requires Inv(db) && rid < |db.runs| && db.runs[rid].status.Queued?
    ensures var runs := db.runs[rid := db.runs[rid].(status := RunStatus.Running)];
            && RunsOk(runs) && RunsEvolve(db.runs, runs) && RefsOk(runs, db.coverages) && DecidedOk(runs, db.coverages)
  {
    var t := db.runs[rid].(status := RunStatus.Running);
    RestatusKeeps(db.runs[rid], t);
    SwapEvolvesAll(db.runs, rid, t);
    DecidedEvolves(db.runs, db.runs[rid := t], db.coverages);
    RefsSwap(db.runs, db.coverages, rid, t);
  }

  lemma StartedLocks(db: Db, rid: RunId)
    requires Inv(db) && rid < |db.runs| && db.runs[rid].status.Queued? && StartRun(db, rid).ok
    ensures var after := StartRun(db, rid).db;
            && LocksOk(after.runs, after.locks) && LockstepOk(after.runs, after.coverages, after.locks)
            && (Mutates(db.runs[rid].kind) ==>
                  db.runs[rid].coverage in after.locks && after.locks[db.runs[rid].coverage] == rid)
  {
    var r := db.runs[rid];
    var t := r.(status := RunStatus.Running);
    if Mutates(r.kind) {
      LocksTaken(db.runs, db.locks, rid, t);
      LockstepTaken(db.runs, db.coverages, db.locks, r.coverage, rid);
    } else {
      LocksSwap(db.runs, db.locks, rid, t);
    }
    LockstepSwap(db.runs, db.coverages, StartRun(db, rid).db.locks, rid, t);
  }

  const STARTED_ENTRY := C.Table(Some(C.Proposed), C.StartInitiation).value

  function StartedCoverage(cov: Coverage, rid: RunId, lead: Option<House>): Coverage {
    Moved(cov, STARTED_ENTRY, Some(rid)).(lead := lead)
  }

  function StartedRow(rid: RunId): C.LogRow {
    C.LogRow(Some(C.Proposed), STARTED_ENTRY.to, STARTED_ENTRY.cause, Some(rid))
  }

  lemma StartedMove(cov: Coverage, rid: RunId, lead: Option<House>)
    requires CoverageOk(cov) && cov.state.Proposed?
    ensures var moved := StartedCoverage(cov, rid, lead);
            CoverageOk(moved) && Grows(cov, moved, StartedRow(rid)) && moved.state.Initiating?
    ensures !STARTED_ENTRY.cause.ByPmDecision?
  {
    CoverageStarts(cov, rid, lead);
  }

  // The rules about the coverage once its initiation has started.
  lemma StartedRules(db: Db, rid: RunId)
    requires Inv(db) && rid < |db.runs|
    requires var r := db.runs[rid];
             r.kind.Initiation? && r.status.Running? && db.coverages[r.coverage].state.Proposed?
    ensures var c := db.runs[rid].coverage;
            var coverages := db.coverages[c := StartedCoverage(db.coverages[c], rid, db.runs[rid].leadHouse)];
            && CoveragesOk(coverages) && RefsOk(db.runs, coverages) && LogsGrow(db.coverages, coverages)
            && LockstepOk(db.runs, coverages, db.locks) && DecidedOk(db.runs, coverages)
            && OutboxOk(db.outbox + [Change(c, STARTED_ENTRY, Some(rid))], coverages)
  {
    var c := db.runs[rid].coverage;
    var moved := StartedCoverage(db.coverages[c], rid, db.runs[rid].leadHouse);
    StartedMove(db.coverages[c], rid, db.runs[rid].leadHouse);
    MoveRules(db, c, moved, StartedRow(rid));
    DecidedGrows(db.runs, db.coverages, c, moved, StartedRow(rid));
    LockstepStarts(db.runs, db.coverages, db.locks, rid, moved, StartedRow(rid));
  }

  lemma StartInitiationKeeps(db: Db, rid: RunId, after: Db)
    requires Inv(db) && rid < |db.runs|
    requires var r := db.runs[rid];
             && r.kind.Initiation? && r.status.Running? && db.coverages[r.coverage].state.Proposed?
             && ByRun(db, r.coverage, C.StartInitiation, rid) == Some(after)
    ensures Inv(after) && Forward(db, after)
  {
    StartMeaning(db, db.runs[rid].coverage, rid);
    StartedRules(db, rid);
    ForwardReflexive(db);
  }

  lemma PromoteKeeps(db: Db, rid: RunId, houses: set<House>, after: Started)
    requires Inv(db) && Promote(db, rid, houses) == Some(after)
    ensures Inv(after.db) && Forward(db, after.db)
  {
    if !db.runs[rid].status.Queued? {
      ForwardReflexive(db);
    } else {
      StartKeeps(db, rid);
      if after != StartRun(db, rid) {
        StartedInitiation(db, rid, houses, after);
        StartInitiationKeeps(StartRun(db, rid).db, rid, after.db);
        ForwardTransitive(db, StartRun(db, rid).db, after.db);
      }
    }
  }

  lemma StartedInitiation(db: Db, rid: RunId, houses: set<House>, after: Started)
    requires rid < |db.runs| && db.runs[rid].status.Queued? && Promote(db, rid, houses) == Some(after)
        && after != StartRun(db, rid)
    ensures var mid := StartRun(db, rid).db;
            && rid < |mid.runs| && mid.runs[rid].coverage < |mid.coverages|
            && mid.runs[rid].kind.Initiation? && mid.runs[rid].status.Running?
            && mid.coverages[mid.runs[rid].coverage].state.Proposed?
            && ByRun(mid, mid.runs[rid].coverage, C.StartInitiation, rid) == Some(after.db)
  {
  }

  // ---- ending a run

  // The run-table rules once run rid has become the terminal run t.
  lemma EndRules(db: Db, rid: RunId, t: Run)
    requires Inv(db) && rid < |db.runs| && RunOk(t) && RunEvolves(db.runs[rid], t)
    requires RunTerminal(t.status) && !RunTerminal(db.runs[rid].status)
    ensures var runs := db.runs[rid := t]; var locks := ReleaseLocks(db.locks, rid);
            && RunsOk(runs) && LocksOk(runs, locks) && LockstepOk(runs, db.coverages, locks)
            && RefsOk(runs, db.coverages) && DecidedOk(runs, db.coverages) && RunsEvolve(db.runs, runs)
  {
    SwapEvolvesAll(db.runs, rid, t);
    LocksReleased(db.runs, db.locks, rid, t);
    LockstepSwap(db.runs, db.coverages, db.locks, rid, t);
    LockstepReleased(db.runs[rid := t], db.coverages, db.locks, rid);
    DecidedEvolves(db.runs, db.runs[rid := t], db.coverages);
    RefsSwap(db.runs, db.coverages, rid, t);
  }

  lemma NobodyElseStarted(db: Db, rid: RunId, t: Run, moved: Coverage, row: C.LogRow)
    requires RunsOk(db.runs) && LocksOk(db.runs, db.locks) && LockstepOk(db.runs, db.coverages, db.locks)
    requires rid < |db.runs| && HoldsTicker(db.runs[rid]) && t.coverage == db.runs[rid].coverage
        && RunTerminal(t.status)
    requires t.coverage < |db.coverages| && Grows(db.coverages[t.coverage], moved, row) && !row.cause.ByStart?
    ensures forall q: RunId | q < |db.runs| && Initiated(moved, q) :: RunTerminal(db.runs[rid := t][q].status)
  {
    var c := t.coverage;
    assert c in db.locks && db.locks[c] == rid;
    forall q: RunId | q < |db.runs| && Initiated(moved, q) ensures RunTerminal(db.runs[rid := t][q].status) {
      StartedGrows(db.coverages[c], moved, row, q);
    }
  }

  // The same while the run's coverage moves with it: nobody else can have started it.
  lemma EndWithMove(db: Db, rid: RunId, t: Run, moved: Coverage, row: C.LogRow)
    requires Inv(db) && rid < |db.runs| && RunOk(t) && RunEvolves(db.runs[rid], t)
    requires RunTerminal(t.status) && HoldsTicker(db.runs[rid])
    requires CoverageOk(moved) && Grows(db.coverages[t.coverage], moved, row)
    requires row.run == Some(rid) && !row.cause.ByStart? && (row.cause.ByPmDecision? ==> DecisionRun(t, t.coverage))
    ensures var runs := db.runs[rid := t]; var locks := ReleaseLocks(db.locks, rid);
            var coverages := db.coverages[t.coverage := moved];
            && LockstepOk(runs, coverages, locks) && DecidedOk(runs, coverages)
  {
    var c := t.coverage;
    EndRules(db, rid, t);
    var runs := db.runs[rid := t];
    var locks := ReleaseLocks(db.locks, rid);
    NobodyElseStarted(db, rid, t, moved, row);
    LockstepMoves(runs, db.coverages, locks, c, moved, row);
    DecidedGrows(runs, db.coverages, c, moved, row);
  }

  lemma EndAndMove(db: Db, rid: RunId, t: Run, moved: Coverage, row: C.LogRow)
    requires Inv(db) && rid < |db.runs| && RunOk(t) && RunEvolves(db.runs[rid], t)
    requires RunTerminal(t.status) && HoldsTicker(db.runs[rid])
    requires CoverageOk(moved) && Grows(db.coverages[t.coverage], moved, row)
    requires row.run == Some(rid) && !row.cause.ByStart? && (row.cause.ByPmDecision? ==> DecisionRun(t, t.coverage))
    ensures var runs := db.runs[rid := t]; var locks := ReleaseLocks(db.locks, rid);
            var coverages := db.coverages[t.coverage := moved];
            && RunsOk(runs) && LocksOk(runs, locks) && CoveragesOk(coverages) && RefsOk(runs, coverages)
            && LockstepOk(runs, coverages, locks) && DecidedOk(runs, coverages)
            && RunsEvolve(db.runs, runs) && LogsGrow(db.coverages, coverages)
    ensures OutboxOk(db.outbox + [Emission(C.StateChanged, t.coverage, row.run, Some(row.to), Some(row.cause))],
                     db.coverages[t.coverage := moved])
  {
    EndRules(db, rid, t);
    EndWithMove(db, rid, t, moved, row);
    MoveRules(db, t.coverage, moved, row);
    RefsGrow(db.runs[rid := t], db.coverages, t.coverage, moved, row);
  }

  function Ended(r: Run, status: RunStatus): Run {
    r.(status := status)
  }

  function EndEvent(db: Db, rid: RunId): Emission
    requires rid < |db.runs|
  {
    Emission(C.RunFinished, db.runs[rid].coverage, Some(rid), None, None)
  }

  lemma FinishMeaning(db: Db, rid: RunId, status: RunStatus)
    requires rid < |db.runs| && RunTerminal(status)
    ensures Finish(db, rid, status).Some? <==>
              || (db.runs[rid].status.Running?)
              || (db.runs[rid].status.WaitingPm? && !status.Failed?)
              || (db.runs[rid].status.Queued? && status.Cancelled?)
    ensures Finish(db, rid, status).Some? ==>
              Finish(db, rid, status).value == db.(
                runs := db.runs[rid := Ended(db.runs[rid], status)],
                locks := ReleaseLocks(db.locks, rid),
                outbox := db.outbox + [EndEvent(db, rid)])
  {
  }

  lemma EndedRunOk(r: Run, status: RunStatus)
    requires RunOk(r) && !RunTerminal(r.status)
    requires || status.Cancelled?
             || (r.status.Running? && status.Failed? && AnyFailed(r))
             || (r.status.Running? && status.Succeeded? && AllSatisfied(r) && !OverBudget(r) && !r.kind.Initiation?)
    ensures RunOk(Ended(r, status)) && RunEvolves(r, Ended(r, status))
  {
    var t := Ended(r, status);
    forall g | 0 <= g < |t.gates| ensures GateOk(t, t.gates[g]) {
      assert GateOk(r, r.gates[g]);
    }
    RestatusKeeps(r, t);
  }

  lemma FinishKeeps(db: Db, rid: RunId, status: RunStatus, after: Db)
    requires Inv(db) && rid < |db.runs| && RunTerminal(status) && Finish(db, rid, status) == Some(after)
    requires RunOk(Ended(db.runs[rid], status)) && RunEvolves(db.runs[rid], Ended(db.runs[rid], status))
    ensures Inv(after) && Forward(db, after)
  {
    FinishMeaning(db, rid, status);
    EndRules(db, rid, Ended(db.runs[rid], status));
    OutboxQuiet(db.outbox, db.coverages, EndEvent(db, rid));
    ForwardReflexive(db);
  }

  // ---- a failed initiation takes its coverage with it

  const FAILED_ENTRY := C.Table(Some(C.Initiating), C.InitiationFailed).value

  // The failing run, its coverage, the lock and the three events, all in one step.
  function FailedTogether(db: Db, rid: RunId): Db
    requires rid < |db.runs| && db.runs[rid].coverage < |db.coverages|
  {
    var c := db.runs[rid].coverage;
    Db(db.runs[rid := Ended(db.runs[rid], RunStatus.Failed)],
       db.coverages[c := Moved(db.coverages[c], FAILED_ENTRY, Some(rid))],
       ReleaseLocks(db.locks, rid),
       db.ledger,
       db.outbox + [Change(c, FAILED_ENTRY, Some(rid))] + [EndEvent(db, rid)] + [EndEvent(db, rid)],
       db.now)
  }

  lemma FailRunMeaning(db: Db, rid: RunId)
    requires rid < |db.runs| && db.runs[rid].status.Running? && db.runs[rid].coverage < |db.coverages|
    ensures var r := db.runs[rid];
            FailRun(db, rid) ==
              if r.kind.Initiation? && db.coverages[r.coverage].state.Initiating? then Some(FailedTogether(db, rid))
              else Finish(db, rid, RunStatus.Failed)
  {
    var r := db.runs[rid];
    if r.kind.Initiation? && db.coverages[r.coverage].state.Initiating? {
      FailMeaning(db, r.coverage, rid);
      FinishMeaning(ByRun(db, r.coverage, C.InitiationFailed, rid).value, rid, RunStatus.Failed);
    }
  }

  lemma FailedTogetherOutbox(db: Db, rid: RunId, moved: Coverage)
    requires Inv(db) && rid < |db.runs|
    requires var c := db.runs[rid].coverage;
             OutboxOk(db.outbox + [Change(c, FAILED_ENTRY, Some(rid))], db.coverages[c := moved])
    ensures OutboxOk(FailedTogether(db, rid).outbox, db.coverages[db.runs[rid].coverage := moved])
  {
    var c := db.runs[rid].coverage;
    var outbox := db.outbox + [Change(c, FAILED_ENTRY, Some(rid))];
    OutboxQuiet(outbox, db.coverages[c := moved], EndEvent(db, rid));
    OutboxQuiet(outbox + [EndEvent(db, rid)], db.coverages[c := moved], EndEvent(db, rid));
  }

  function FailedRow(rid: RunId): C.LogRow {
    C.LogRow(Some(C.Initiating), FAILED_ENTRY.to, FAILED_ENTRY.cause, Some(rid))
  }

  lemma FailedMove(cov: Coverage, rid: RunId)
    requires CoverageOk(cov) && cov.state.Initiating?
    ensures var moved := Moved(cov, FAILED_ENTRY, Some(rid));
            CoverageOk(moved) && Grows(cov, moved, FailedRow(rid))
    ensures !FAILED_ENTRY.cause.ByStart? && !FAILED_ENTRY.cause.ByPmDecision?
  {
    CoverageMoves(cov, C.InitiationFailed, Some(rid));
  }

  lemma FailedTogetherRules(db: Db, rid: RunId)
    requires Inv(db) && rid < |db.runs| && db.runs[rid].status.Running? && AnyFailed(db.runs[rid])
    requires db.runs[rid].kind.Initiation? && db.coverages[db.runs[rid].coverage].state.Initiating?
    ensures var after := FailedTogether(db, rid);
            && RunsOk(after.runs) && LocksOk(after.runs, after.locks) && CoveragesOk(after.coverages)
            && RefsOk(after.runs, after.coverages)
            && LockstepOk(after.runs, after.coverages, after.locks) && DecidedOk(after.runs, after.coverages)
            && RunsEvolve(db.runs, after.runs) && LogsGrow(db.coverages, after.coverages)
            && OutboxOk(db.outbox + [Change(db.runs[rid].coverage, FAILED_ENTRY, Some(rid))], after.coverages)
  {
    var r := db.runs[rid];
    EndedRunOk(r, RunStatus.Failed);
    FailedMove(db.coverages[r.coverage], rid);
    EndAndMove(db, rid, Ended(r, RunStatus.Failed), Moved(db.coverages[r.coverage], FAILED_ENTRY, Some(rid)),
        FailedRow(rid));
  }

  lemma FailedTogetherKeeps(db: Db, rid: RunId)
    requires Inv(db) && rid < |db.runs| && db.runs[rid].status.Running? && AnyFailed(db.runs[rid])
    requires db.runs[rid].kind.Initiation? && db.coverages[db.runs[rid].coverage].state.Initiating?
    ensures Inv(FailedTogether(db, rid)) && Forward(db, FailedTogether(db, rid))
  {
    FailedTogetherRules(db, rid);
    FailedTogetherOutbox(db, rid, Moved(db.coverages[db.runs[rid].coverage], FAILED_ENTRY, Some(rid)));
    P.PreservesSelf(db.ledger);
  }

  lemma FailRunKeeps(db: Db, rid: RunId, after: Db)
    requires Inv(db) && rid < |db.runs| && db.runs[rid].status.Running? && AnyFailed(db.runs[rid])
    requires FailRun(db, rid) == Some(after)
    ensures Inv(after) && Forward(db, after)
  {
    FailRunMeaning(db, rid);
    if after == FailedTogether(db, rid) && db.runs[rid].kind.Initiation?
        && db.coverages[db.runs[rid].coverage].state.Initiating? {
      FailedTogetherKeeps(db, rid);
    } else {
      EndedRunOk(db.runs[rid], RunStatus.Failed);
      FinishKeeps(db, rid, RunStatus.Failed, after);
    }
  }

  // ---- a delivered initiation waits at its decision gate

  lemma LockstepDelivers(
    runs: seq<Run>, coverages: seq<Coverage>, locks: map<CoverageId, RunId>, rid: RunId, t: Run, moved: Coverage,
    row: C.LogRow)
    requires LockstepOk(runs, coverages, locks) && rid < |runs|
    requires t.coverage == runs[rid].coverage < |coverages| && t.kind == runs[rid].kind && t.kind.Initiation?
    requires !RunTerminal(runs[rid].status) && AtDecisionGate(t)
    requires t.coverage in locks && locks[t.coverage] == rid
    requires Grows(coverages[t.coverage], moved, row) && !row.cause.ByStart? && moved.state.DecisionPending?
    ensures LockstepOk(runs[rid := t], coverages[t.coverage := moved], locks)
  {
    var c := t.coverage;
    var next := coverages[c := moved];
    var after := runs[rid := t];
    forall d, q: RunId | 0 <= d < |next| && q < |after| && Initiated(next[d], q) && !RunTerminal(after[q].status)
      ensures && after[q].kind.Initiation? && after[q].coverage == d && d in locks && locks[d] == q
              && InStep(after[q], next[d].state)
    {
      if d == c {
        StartedGrows(coverages[c], moved, row, q);
        assert Initiated(coverages[c], q) && !RunTerminal(runs[q].status);
      } else {
        assert Initiated(coverages[d], q) && !RunTerminal(runs[q].status);
      }
    }
  }

  const DELIVERED_ENTRY := C.Table(Some(C.Initiating), C.InitiationDelivered).value

  function AtGate(r: Run): Run {
    r.(status := WaitingPm, gates := r.gates + [DECISION_GATE])
  }

  function Delivered(db: Db, rid: RunId): Db
    requires rid < |db.runs| && db.runs[rid].coverage < |db.coverages|
  {
    var c := db.runs[rid].coverage;
    Db(db.runs[rid := AtGate(db.runs[rid])],
       db.coverages[c := Moved(db.coverages[c], DELIVERED_ENTRY, Some(rid))],
       db.locks,
       db.ledger,
       db.outbox + [Change(c, DELIVERED_ENTRY, Some(rid))] + [Emission(C.GateOpened, c, Some(rid), None, None)],
       db.now)
  }

  // An initiation is finalized if and only if its coverage is initiating and has a lead.
  lemma FinalizeMeaning(db: Db, rid: RunId)
    requires rid < |db.runs| && db.runs[rid].status.Running? && db.runs[rid].kind.Initiation?
    requires db.runs[rid].coverage < |db.coverages|
    ensures FinalizeRun(db, rid) ==
              if Deliverable(db.coverages[db.runs[rid].coverage]) then Some(Delivered(db, rid)) else None
  {
    var r := db.runs[rid];
    DeliverMeaning(db, r.coverage, rid);
    if Deliverable(db.coverages[r.coverage]) {
      var gated := r.(gates := r.gates + [DECISION_GATE]);
      assert db.runs[rid := gated][rid := AtGate(r)] == db.runs[rid := AtGate(r)];
    }
  }

  lemma GatedRunOk(r: Run)
    requires RunOk(r) && r.status.Running? && r.kind.Initiation? && AllSatisfied(r) && !OverBudget(r)
    ensures RunOk(AtGate(r)) && RunEvolves(r, AtGate(r)) && AtDecisionGate(AtGate(r))
  {
    var t := AtGate(r);
    assert t.gates == [DECISION_GATE];
    assert GateOk(t, DECISION_GATE);
    RestatusKeeps(r, t);
  }

  // What ties runs to locks, coverages and decisions once the run waits.
  lemma DeliverTies(db: Db, rid: RunId, t: Run, moved: Coverage, row: C.LogRow)
    requires Inv(db) && rid < |db.runs| && RunOk(t) && RunEvolves(db.runs[rid], t)
    requires HoldsTicker(db.runs[rid]) && t.kind.Initiation? && AtDecisionGate(t)
    requires CoverageOk(moved) && Grows(db.coverages[t.coverage], moved, row) && moved.state.DecisionPending?
    requires row.run == Some(rid) && row.cause.ByDelivery?
    requires RunsEvolve(db.runs, db.runs[rid := t])
    ensures var runs := db.runs[rid := t];
            var coverages := db.coverages[t.coverage := moved];
            LocksOk(runs, db.locks) && LockstepOk(runs, coverages, db.locks) && DecidedOk(runs, coverages)
  {
    LocksSwap(db.runs, db.locks, rid, t);
    LockstepDelivers(db.runs, db.coverages, db.locks, rid, t, moved, row);
    DecidedGrows(db.runs, db.coverages, t.coverage, moved, row);
    DecidedEvolves(db.runs, db.runs[rid := t], db.coverages[t.coverage := moved]);
  }

  // The rules for a run that waits with its coverage pending.
  lemma DeliverRules(db: Db, rid: RunId, t: Run, moved: Coverage, row: C.LogRow)
    requires Inv(db) && rid < |db.runs| && RunOk(t) && RunEvolves(db.runs[rid], t)
    requires HoldsTicker(db.runs[rid]) && t.kind.Initiation? && AtDecisionGate(t)
    requires CoverageOk(moved) && Grows(db.coverages[t.coverage], moved, row) && moved.state.DecisionPending?
    requires row.run == Some(rid) && row.cause.ByDelivery?
    ensures var runs := db.runs[rid := t];
            var coverages := db.coverages[t.coverage := moved];
            && RunsOk(runs) && LocksOk(runs, db.locks) && CoveragesOk(coverages) && RefsOk(runs, coverages)
            && LockstepOk(runs, coverages, db.locks) && DecidedOk(runs, coverages)
            && RunsEvolve(db.runs, runs) && LogsGrow(db.coverages, coverages)
    ensures OutboxOk(db.outbox + [Emission(C.StateChanged, t.coverage, row.run, Some(row.to), Some(row.cause))],
                     db.coverages[t.coverage := moved])
  {
    SwapEvolvesAll(db.runs, rid, t);
    MoveRules(db, t.coverage, moved, row);
    RefsSwap(db.runs, db.coverages[t.coverage := moved], rid, t);
    DeliverTies(db, rid, t, moved, row);
  }

  lemma DeliveredMove(cov: Coverage, rid: RunId)
    requires CoverageOk(cov) && Deliverable(cov)
    ensures var moved := Moved(cov, DELIVERED_ENTRY, Some(rid));
            && CoverageOk(moved) && moved.state.DecisionPending?
            && Grows(cov, moved, C.LogRow(Some(C.Initiating), DELIVERED_ENTRY.to, DELIVERED_ENTRY.cause, Some(rid)))
    ensures DELIVERED_ENTRY.cause.ByDelivery?
  {
    CoverageMoves(cov, C.InitiationDelivered, Some(rid));
  }

  lemma DeliverKeeps(db: Db, rid: RunId)
    requires Inv(db) && rid < |db.runs| && db.runs[rid].status.Running? && db.runs[rid].kind.Initiation?
    requires AllSatisfied(db.runs[rid]) && !OverBudget(db.runs[rid])
    requires Deliverable(db.coverages[db.runs[rid].coverage])
    ensures Inv(Delivered(db, rid)) && Forward(db, Delivered(db, rid))
  {
    var r := db.runs[rid];
    var c := r.coverage;
    var row := C.LogRow(Some(C.Initiating), DELIVERED_ENTRY.to, DELIVERED_ENTRY.cause, Some(rid));
    var moved := Moved(db.coverages[c], DELIVERED_ENTRY, Some(rid));
    GatedRunOk(r);
    DeliveredMove(db.coverages[c], rid);
    DeliverRules(db, rid, AtGate(r), moved, row);
    OutboxQuiet(db.outbox + [Change(c, DELIVERED_ENTRY, Some(rid))], db.coverages[c := moved],
                Emission(C.GateOpened, c, Some(rid), None, None));
    P.PreservesSelf(db.ledger);
  }

  // ---- the PM decides

  function DecisionEntry(a: C.Action): C.Transition
    requires C.IsDecide(a)
  {
    C.Table(Some(C.DecisionPending), a).value
  }

  function DecidedRun(r: Run, a: C.Action): Run
    requires |r.gates| == 1
  {
    r.(status := RunStatus.Succeeded, gates := [AnsweredBy(r.gates[0], DecisionAnswer(a))])
  }

  function Decided(db: Db, c: CoverageId, a: C.Action, g: RunId): Db
    requires c < |db.coverages| && g < |db.runs| && |db.runs[g].gates| == 1 && C.IsDecide(a)
  {
    Db(db.runs[g := DecidedRun(db.runs[g], a)],
       db.coverages[c := Moved(db.coverages[c], DecisionEntry(a), Some(g))],
       ReleaseLocks(db.locks, g),
       db.ledger,
       db.outbox + [Change(c, DecisionEntry(a), Some(g))] + [Emission(C.RunFinished, c, Some(g), None, None)],
       db.now)
  }

  // The gate an unfinished initiation is waiting at for the PM's decision.
  predicate Undecided(r: Run, c: CoverageId) {
    r.coverage == c && AtDecisionGate(r) && r.gates[0].state.Open?
  }

  lemma AnswersAllowed(a: C.Action)
    requires C.IsDecide(a)
    ensures DecisionAnswer(a) in DECISION_GATE.allowed
  {
    var allowed := DECISION_GATE.allowed;
    assert allowed[0] == "active" && allowed[1] == "watch" && allowed[2] == "reject";
  }

  lemma AnswersRefused(a: C.Action)
    requires C.IsDecide(a)
    ensures DecisionAnswer(a) !in BUDGET_GATE.allowed
  {
    var answer := DecisionAnswer(a);
    assert answer[0] == 'a' || answer[0] == 'w' || |answer| != |"raise_cap"|;
    assert "raise_cap"[0] == 'r' && |"raise_cap"| == 9 && "cancel"[0] == 'c';
    assert answer[0] != 'c' && (answer[0] == 'r' ==> |answer| == 6);
  }

  lemma OpenGateShape(r: Run, a: C.Action)
    requires RunOk(r) && C.IsDecide(a) && FirstOpen(r.gates).Some?
    ensures FirstOpen(r.gates) == Some(0) && |r.gates| == 1
    ensures DecisionAnswer(a) in r.gates[0].allowed <==> r.gates[0].kind.InitiationDecision?
  {
    SoleOpenGate(r.gates);
    assert GateOk(r, r.gates[0]);
    AnswersAllowed(a);
    AnswersRefused(a);
  }

  lemma SoleOpenGate(gates: seq<Gate>)
    requires |gates| <= 1 && FirstOpen(gates).Some?
    ensures FirstOpen(gates) == Some(0) && |gates| == 1
  {
  }

  // Finishing the run after its gate was answered.
  lemma DecisionFinished(db: Db, c: CoverageId, a: C.Action, g: RunId)
    requires c < |db.coverages| && g < |db.runs| && C.IsDecide(a)
    requires db.coverages[c].state.DecisionPending? && db.runs[g].coverage == c
    requires |db.runs[g].gates| == 1 && FirstOpen(db.runs[g].gates) == Some(0)
    requires !db.runs[g].status.Running?
    ensures Finish(DecisionMade(db, c, a, g), g, RunStatus.Succeeded) ==
              if db.runs[g].status.WaitingPm? then Some(Decided(db, c, a, g)) else None
  {
    var r := db.runs[g];
    var t := r.(gates := r.gates[0 := AnsweredBy(r.gates[0], DecisionAnswer(a))]);
    FinishMeaning(DecisionMade(db, c, a, g), g, RunStatus.Succeeded);
    assert t.gates == [AnsweredBy(r.gates[0], DecisionAnswer(a))];
    assert db.runs[g := t][g := DecidedRun(r, a)] == db.runs[g := DecidedRun(r, a)];
  }

  // A decision goes through if and only if the coverage is pending and the open gate the
  // query returned belongs to an initiation still waiting at its decision gate; it then
  // ends that run and moves the coverage in one step.
  lemma DecideExact(db: Db, c: CoverageId, a: C.Action, gateRun: Option<RunId>)
    requires Inv(db) && C.IsDecide(a) && (gateRun.Some? ==> OpenGateRun(db, c, gateRun.value))
    ensures Decide(db, c, a, gateRun).Some? <==>
              && c < |db.coverages| && db.coverages[c].state.DecisionPending?
              && gateRun.Some? && Undecided(db.runs[gateRun.value], c)
    ensures Decide(db, c, a, gateRun).Some? ==> Decide(db, c, a, gateRun).value == Decided(db, c, a, gateRun.value)
  {
    if c < |db.coverages| {
      assert CoverageOk(db.coverages[c]);
      DecideMeaning(db, c, a, gateRun);
      if gateRun.Some? {
        assert RunOk(db.runs[gateRun.value]);
        OpenGateShape(db.runs[gateRun.value], a);
        if db.coverages[c].state.DecisionPending? {
          DecisionFinished(db, c, a, gateRun.value);
        }
      }
    }
  }

  lemma DecidedRunOk(r: Run, a: C.Action)
    requires RunOk(r) && AtDecisionGate(r)
    ensures r.kind.Initiation? && RunOk(DecidedRun(r, a)) && RunEvolves(r, DecidedRun(r, a))
  {
    var t := DecidedRun(r, a);
    assert GateOk(r, r.gates[0]);
    assert GateOk(t, t.gates[0]);
    RestatusKeeps(r, t);
  }

  lemma DecidedCoverageOk(cov: Coverage, a: C.Action, g: RunId)
    requires CoverageOk(cov) && cov.state.DecisionPending? && C.IsDecide(a)
    ensures CoverageOk(Moved(cov, DecisionEntry(a), Some(g))) && DecisionEntry(a).cause.ByPmDecision?
  {
    CoverageMoves(cov, a, Some(g));
  }

  lemma DecidedKeeps(db: Db, c: CoverageId, a: C.Action, g: RunId)
    requires Inv(db) && c < |db.coverages| && g < |db.runs| && C.IsDecide(a)
    requires db.coverages[c].state.DecisionPending? && Undecided(db.runs[g], c)
    ensures Inv(Decided(db, c, a, g)) && Forward(db, Decided(db, c, a, g))
  {
    var entry := DecisionEntry(a);
    var t := DecidedRun(db.runs[g], a);
    var row := C.LogRow(Some(C.DecisionPending), entry.to, entry.cause, Some(g));
    var moved := Moved(db.coverages[c], entry, Some(g));
    DecidedRunOk(db.runs[g], a);
    DecidedCoverageOk(db.coverages[c], a, g);
    EndAndMove(db, g, t, moved, row);
    OutboxQuiet(db.outbox + [Change(c, entry, Some(g))], db.coverages[c := moved],
        Emission(C.RunFinished, c, Some(g), None, None));
    P.PreservesSelf(db.ledger);
  }
}
