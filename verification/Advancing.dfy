// One advance pass keeps the invariants, registers each result once and appends at most
// one cross-check (core/orchestrator/engine.py).
module Advancing {
  import opened Domain
  import opened Protocol
  import opened Invariants
  import opened Effects
  import opened Tables
  import opened Preservation
  import opened Lifecycle
  import R = RunMachine
  import P = Predictions
  import Q = Queue
  import X = CrossCheck

  // ---- the scan

  lemma {:induction false} MaxSeqIsLast(stages: seq<Stage>)
    requires forall k | 0 <= k < |stages| :: stages[k].seqNo == k + 1
    ensures MaxSeq(stages) == |stages|
  {
    if stages != [] {
      MaxSeqIsLast(stages[..|stages| - 1]);
    }
  }

  lemma AppendedStageOk(r: Run, author: Stage, pass: Pass, now: Time)
    requires r.kind in pass.fund.policies && FundOk(pass.fund)
    ensures Q.StageOk(CrossCheckStage(r, author, pass, now))
  {
    assert Q.RowCost([]) == 0.0;
  }

  lemma AppendKeepsOrder(r: Run, t: Run, s: Stage)
    requires GraphOk(r) && OrderOk(r) && t.stages == r.stages + [s]
    requires s.seqNo == |r.stages| + 1 && s.dependsOn == Some(1) && s.attempts == 0
    ensures GraphOk(t) && OrderOk(t)
  {
    assert GraphOk(t);
    forall k | 0 <= k < |t.stages| && t.stages[k].attempts > 0 ensures Q.DependencyMet(t, t.stages[k]) {
      assert t.stages[k] == r.stages[k];
      assert Q.DependencyMet(r, r.stages[k]);
      DependencyByPosition(r, k);
      DependencyByPosition(t, k);
    }
  }

  lemma CheckedIffTwo(r: Run)
    requires RolesOk(r) && r.kind.EventAnalysis?
    ensures HasCrossCheck(r) <==> |r.stages| == 2
  {
  }

  // A run that already has a cross-check never gets another, and an appended one waits
  // for the author only.
  lemma AppendKeeps(r: Run, pass: Pass, now: Time)
    requires RunOk(r) && r.status.Running? && r.kind.EventAnalysis? && FundOk(pass.fund)
    requires MaybeAppend(r, r.stages[0], pass, now).Some?
    ensures var t := MaybeAppend(r, r.stages[0], pass, now).value;
            && RunOk(t) && RunEvolves(r, t) && t.status == r.status && t.gates == r.gates
            && r.stages <= t.stages
            && (X.AutoCrossCheck(r.stages[0].result, pass.lastTp, pass.fund.tpChangePct) ==> HasCrossCheck(t))
  {
    var t := MaybeAppend(r, r.stages[0], pass, now).value;
    if t == r {
      RunEvolvesReflexive(r);
    } else {
      var s := CrossCheckStage(r, r.stages[0], pass, now);
      MaxSeqIsLast(r.stages);
      AppendedStageOk(r, r.stages[0], pass, now);
      CheckedIffTwo(r);
      AppendKeepsOrder(r, t, s);
      assert t.stages[..|r.stages|] == r.stages;
      assert t.stages[1].role.CrossCheck?;
      assert Q.StageCost(t.stages) == Q.StageCost(r.stages) + s.cost;
    }
  }

  // What scanning has done so far to the run: at most a stage more.
  ghost predicate ScanRunOk(r: Run, t: Run) {
    && RunOk(t) && RunEvolves(r, t) && t.status == r.status && t.gates == r.gates
    && r.stages <= t.stages
  }

  // And to the ledger: only rows of this run are added, under fresh keys.
  ghost predicate ScanLedgerOk(before: seq<P.Prediction>, after: seq<P.Prediction>, rid: RunId) {
    && before <= after
    && (P.KeysUnique(before) ==> P.KeysUnique(after))
    && (forall i | |before| <= i < |after| :: after[i].run == P.Ref(rid))
  }

  lemma ScanStageKeepsLedger(before: seq<P.Prediction>, acc: Scan, rid: RunId, k: nat, pass: Pass, now: Time)
    requires k < |acc.run.stages|
    requires ScanLedgerOk(before, acc.ledger, rid) && ScanStage(acc, rid, k, pass, now).Some?
    ensures ScanLedgerOk(before, ScanStage(acc, rid, k, pass, now).value.ledger, rid)
  {
    var s := acc.run.stages[k];
    if Scanned(s) {
      var o, entries := OriginOf(acc.run, rid, s, now), P.Entries(s.result.value.predictions);
      P.RegisterAppends(acc.ledger, o, entries);
      LedgersChain(before, acc.ledger, P.Register(acc.ledger, o, entries).value, rid);
    }
  }

  lemma LedgersChain(before: seq<P.Prediction>, mid: seq<P.Prediction>, after: seq<P.Prediction>, rid: RunId)
    requires ScanLedgerOk(before, mid, rid) && ScanLedgerOk(mid, after, rid)
    ensures ScanLedgerOk(before, after, rid)
  {
  }

  // The pass sees an author's result to compare.
  predicate SeesAuthor(r: Run) {
    r.kind.EventAnalysis? && |r.stages| > 0 && r.stages[0].role.Author? && Scanned(r.stages[0])
  }

  predicate FirstIsOnlyAuthor(r: Run) {
    forall k | 0 < k < |r.stages| :: !r.stages[k].role.Author?
  }

  // All that a scan does to its run happens at the author's stage.
  lemma {:induction false} ScanRunExact(start: Scan, rid: RunId, n: nat, pass: Pass, now: Time)
    requires n <= |start.run.stages| && FirstIsOnlyAuthor(start.run)
    requires ScanTo(start, rid, n, pass, now).Some?
    ensures var t := ScanTo(start, rid, n, pass, now).value.run;
            && start.run.stages <= t.stages
            && (n > 0 && SeesAuthor(start.run) ==> MaybeAppend(start.run, start.run.stages[0], pass, now) == Some(t))
            && (n == 0 || !SeesAuthor(start.run) ==> t == start.run)
    decreases n
  {
    if n > 0 {
      ScanRunExact(start, rid, n - 1, pass, now);
      var acc := ScanTo(start, rid, n - 1, pass, now).value;
      assert acc.run.stages[n - 1] == start.run.stages[n - 1];
    }
  }

  lemma ScanKeepsRun(start: Scan, rid: RunId, n: nat, pass: Pass, now: Time)
    requires RunOk(start.run) && start.run.status.Running? && FundOk(pass.fund) && n <= |start.run.stages|
    requires ScanTo(start, rid, n, pass, now).Some?
    ensures ScanRunOk(start.run, ScanTo(start, rid, n, pass, now).value.run)
  {
    ScanRunExact(start, rid, n, pass, now);
    if n > 0 && SeesAuthor(start.run) {
      AppendKeeps(start.run, pass, now);
    } else {
      RunEvolvesReflexive(start.run);
    }
  }

  lemma {:induction false} ScanKeepsLedger(start: Scan, rid: RunId, n: nat, pass: Pass, now: Time)
    requires n <= |start.run.stages|
    requires ScanTo(start, rid, n, pass, now).Some?
    ensures ScanLedgerOk(start.ledger, ScanTo(start, rid, n, pass, now).value.ledger, rid)
    decreases n
  {
    if n > 0 {
      ScanKeepsLedger(start, rid, n - 1, pass, now);
      ScanStageKeepsLedger(start.ledger, ScanTo(start, rid, n - 1, pass, now).value, rid, n - 1, pass, now);
    }
  }

  function ScanOf(db: Db, rid: RunId, pass: Pass): Option<Scan>
    requires rid < |db.runs|
  {
    ScanTo(Scan(db.runs[rid], db.ledger), rid, |db.runs[rid].stages|, pass, db.now)
  }

  lemma ScanKeeps(db: Db, rid: RunId, pass: Pass)
    requires Inv(db) && rid < |db.runs| && db.runs[rid].status.Running? && FundOk(pass.fund)
    requires ScanOf(db, rid, pass).Some?
    ensures ScanRunOk(db.runs[rid], ScanOf(db, rid, pass).value.run)
    ensures ScanLedgerOk(db.ledger, ScanOf(db, rid, pass).value.ledger, rid)
  {
    var start := Scan(db.runs[rid], db.ledger);
    ScanKeepsRun(start, rid, |start.run.stages|, pass, db.now);
    ScanKeepsLedger(start, rid, |start.run.stages|, pass, db.now);
  }

  function AfterScan(db: Db, rid: RunId, scan: Scan): Db
    requires rid < |db.runs|
  {
    SetRun(db, rid, scan.run).(ledger := scan.ledger)
  }

  lemma PrefixPreserves(before: seq<P.Prediction>, after: seq<P.Prediction>)
    requires before <= after
    ensures P.Preserves(before, after)
  {
  }

  lemma AfterScanKeeps(db: Db, rid: RunId, scan: Scan)
    requires Inv(db) && rid < |db.runs|
    requires ScanRunOk(db.runs[rid], scan.run) && ScanLedgerOk(db.ledger, scan.ledger, rid)
    ensures Inv(AfterScan(db, rid, scan)) && Forward(db, AfterScan(db, rid, scan))
  {
    SwapRunKeeps(db, rid, scan.run);
    PrefixPreserves(db.ledger, scan.ledger);
    assert LedgerOk(scan.ledger, |db.runs|);
  }

  // ---- the conclusion

  lemma RequeuedRunOk(r: Run)
    requires RunOk(r) && r.status.Running?
    ensures var t := r.(status := RunStatus.Queued); RunOk(t) && RunEvolves(r, t)
  {
    RestatusKeeps(r, r.(status := RunStatus.Queued));
  }

  lemma PausedRunOk(r: Run)
    requires RunOk(r) && r.status.Running?
    ensures var t := r.(status := WaitingPm, gates := r.gates + [BUDGET_GATE]);
            RunOk(t) && RunEvolves(r, t) && !AtDecisionGate(t)
  {
    var t := r.(status := WaitingPm, gates := r.gates + [BUDGET_GATE]);
    assert t.gates == [BUDGET_GATE];
    assert GateOk(t, BUDGET_GATE);
    RestatusKeeps(r, t);
  }

  lemma StandstillRules(db: Db, rid: RunId, t: Run)
    requires Inv(db) && rid < |db.runs| && db.runs[rid].status.Running?
    requires RunEvolves(db.runs[rid], t) && !RunTerminal(t.status) && !AtDecisionGate(t)
    ensures var runs := db.runs[rid := t];
            && LocksOk(runs, db.locks) && LockstepOk(runs, db.coverages, db.locks)
            && RefsOk(runs, db.coverages) && DecidedOk(runs, db.coverages) && RunsEvolve(db.runs, runs)
  {
    SwapEvolvesAll(db.runs, rid, t);
    LocksSwap(db.runs, db.locks, rid, t);
    LockstepSwap(db.runs, db.coverages, db.locks, rid, t);
    DecidedEvolves(db.runs, db.runs[rid := t], db.coverages);
    RefsSwap(db.runs, db.coverages, rid, t);
  }

  // Requeued or paused: the run keeps its lock and its coverage keeps its state.
  lemma StandstillKeeps(db: Db, rid: RunId, t: Run)
    requires Inv(db) && rid < |db.runs| && db.runs[rid].status.Running?
    requires RunOk(t) && RunEvolves(db.runs[rid], t) && !RunTerminal(t.status) && !AtDecisionGate(t)
    ensures Inv(SetRun(db, rid, t)) && Forward(db, SetRun(db, rid, t))
  {
    StandstillRules(db, rid, t);
    P.PreservesSelf(db.ledger);
  }

  lemma StatusMeaning(db: Db, rid: RunId)
    requires rid < |db.runs| && db.runs[rid].status.Running?
    ensures ChangeStatus(db, rid, R.Requeue) == Some(SetRun(db, rid, db.runs[rid].(status := RunStatus.Queued)))
    ensures PauseForBudget(db, rid) ==
            Some(SetRun(db, rid, db.runs[rid].(status := WaitingPm, gates := db.runs[rid].gates + [BUDGET_GATE])))
  {
    var r := db.runs[rid];
    var gated := r.(gates := r.gates + [BUDGET_GATE]);
    var paused := r.(status := WaitingPm, gates := r.gates + [BUDGET_GATE]);
    assert db.runs[rid := gated][rid := paused] == db.runs[rid := paused];
  }

  lemma AllTerminalSatisfied(r: Run)
    requires RunOk(r) && AllTerminal(r) && !AnyFailed(r)
    ensures AllSatisfied(r)
  {
  }

  lemma ConcludeKeeps(db: Db, rid: RunId, after: Db)
    requires Inv(db) && rid < |db.runs| && db.runs[rid].status.Running?
    requires Conclude(db, rid) == Some(after)
    ensures Inv(after) && Forward(db, after)
  {
    var r := db.runs[rid];
    StatusMeaning(db, rid);
    if AnyFailed(r) {
      FailRunKeeps(db, rid, after);
    } else if BackoffPending(r, db.now) {
      RequeuedRunOk(r);
      StandstillKeeps(db, rid, after.runs[rid]);
    } else if OverBudget(r) {
      PausedRunOk(r);
      StandstillKeeps(db, rid, after.runs[rid]);
    } else if !AllTerminal(r) {
      ForwardReflexive(db);
    } else {
      AllTerminalSatisfied(r);
      FinalizeKeeps(db, rid, after);
    }
  }

  lemma FinalizeKeeps(db: Db, rid: RunId, after: Db)
    requires Inv(db) && rid < |db.runs| && db.runs[rid].status.Running?
    requires AllSatisfied(db.runs[rid]) && !OverBudget(db.runs[rid])
    requires FinalizeRun(db, rid) == Some(after)
    ensures Inv(after) && Forward(db, after)
  {
    var r := db.runs[rid];
    if r.kind.Initiation? {
      FinalizeMeaning(db, rid);
      DeliverKeeps(db, rid);
    } else {
      EndedRunOk(r, RunStatus.Succeeded);
      FinishKeeps(db, rid, RunStatus.Succeeded, after);
    }
  }

  lemma AdvanceKeeps(db: Db, rid: RunId, pass: Pass, after: Db)
    requires Inv(db) && FundOk(pass.fund) && Advance(db, rid, pass) == Some(after)
    ensures Inv(after) && Forward(db, after)
  {
    if !db.runs[rid].status.Running? {
      ForwardReflexive(db);
    } else {
      var scan := ScanOf(db, rid, pass).value;
      ScanKeeps(db, rid, pass);
      AfterScanKeeps(db, rid, scan);
      ConcludeKeeps(AfterScan(db, rid, scan), rid, after);
      ForwardTransitive(db, AfterScan(db, rid, scan), after);
    }
  }

  // ---- when a pass raises

  lemma ConcludeRaisesIff(db: Db, rid: RunId)
    requires Inv(db) && rid < |db.runs| && db.runs[rid].status.Running?
    ensures var r := db.runs[rid];
            Conclude(db, rid).None? <==>
              && !AnyFailed(r) && !BackoffPending(r, db.now) && !OverBudget(r) && AllTerminal(r)
              && r.kind.Initiation? && !Deliverable(db.coverages[r.coverage])
  {
    var r := db.runs[rid];
    StatusMeaning(db, rid);
    FailRunMeaning(db, rid);
    FinishMeaning(db, rid, RunStatus.Failed);
    FinishMeaning(db, rid, RunStatus.Succeeded);
    if r.kind.Initiation? {
      FinalizeMeaning(db, rid);
    }
  }

  // The stage's result names an entry that the ledger refuses.
  predicate Unregistrable(s: Stage) {
    Scanned(s) && exists e :: e in P.Entries(s.result.value.predictions) && !P.Insertable(e)
  }

  predicate BadResult(r: Run, n: nat)
    requires n <= |r.stages|
  {
    exists k :: 0 <= k < n && Unregistrable(r.stages[k])
  }

  // The author's result calls for a cross-check that no policy says how to staff.
  predicate PolicyMissing(r: Run, pass: Pass) {
    && SeesAuthor(r) && X.AutoCrossCheck(r.stages[0].result, pass.lastTp, pass.fund.tpChangePct)
    && !HasCrossCheck(r) && r.kind !in pass.fund.policies
  }

  lemma StageRaisesIff(acc: Scan, rid: RunId, k: nat, pass: Pass, now: Time)
    requires k < |acc.run.stages|
    ensures var s := acc.run.stages[k];
            ScanStage(acc, rid, k, pass, now).None? <==>
              || Unregistrable(s)
              || (Scanned(s) && acc.run.kind.EventAnalysis? && s.role.Author?
                  && MaybeAppend(acc.run, s, pass, now).None?)
  {
    var s := acc.run.stages[k];
    if Scanned(s) {
      P.RegisterRaisesIff(acc.ledger, OriginOf(acc.run, rid, s, now), P.Entries(s.result.value.predictions));
    }
  }

  // A scan raises if and only if a finished stage's result cannot be registered, or the
  // cross-check it calls for has no policy.
  lemma {:induction false} ScanRaisesIff(start: Scan, rid: RunId, n: nat, pass: Pass, now: Time)
    requires n <= |start.run.stages| && FirstIsOnlyAuthor(start.run)
    ensures ScanTo(start, rid, n, pass, now).None? <==>
        BadResult(start.run, n) || (n > 0 && PolicyMissing(start.run, pass))
    decreases n
  {
    if n > 0 {
      ScanRaisesIff(start, rid, n - 1, pass, now);
      var before := ScanTo(start, rid, n - 1, pass, now);
      if before.Some? {
        ScanRunExact(start, rid, n - 1, pass, now);
        assert before.value.run.stages[n - 1] == start.run.stages[n - 1];
        StageRaisesIff(before.value, rid, n - 1, pass, now);
      }
    }
  }

  // A pass over a running run raises if and only if a finished stage's result cannot be
  // registered, a cross-check is due that has no policy, or the run is a fully worked
  // initiation whose coverage is not initiating or has no lead.
  lemma AdvanceRaisesIff(db: Db, rid: RunId, pass: Pass)
    requires Inv(db) && FundOk(pass.fund) && rid < |db.runs| && db.runs[rid].status.Running?
    ensures var r := db.runs[rid];
            Advance(db, rid, pass).None? <==>
              || BadResult(r, |r.stages|)
              || PolicyMissing(r, pass)
              || (&& AllSatisfied(r) && !OverBudget(r)
                  && r.kind.Initiation? && !Deliverable(db.coverages[r.coverage]))
  {
    var r := db.runs[rid];
    assert RunOk(r);
    ScanRaisesIff(Scan(r, db.ledger), rid, |r.stages|, pass, db.now);
    if ScanOf(db, rid, pass).Some? {
      AfterScanRaisesIff(db, rid, pass);
    }
  }

  lemma AfterScanRaisesIff(db: Db, rid: RunId, pass: Pass)
    requires Inv(db) && FundOk(pass.fund) && rid < |db.runs| && db.runs[rid].status.Running?
    requires ScanOf(db, rid, pass).Some?
    ensures var r := db.runs[rid];
            Advance(db, rid, pass).None? <==>
              && AllSatisfied(r) && !OverBudget(r)
              && r.kind.Initiation? && !Deliverable(db.coverages[r.coverage])
  {
    var r := db.runs[rid];
    var scan := ScanOf(db, rid, pass).value;
    ScanKeeps(db, rid, pass);
    AfterScanKeeps(db, rid, scan);
    ConcludeRaisesIff(AfterScan(db, rid, scan), rid);
    if r.kind.Initiation? {
      ScanLeavesOthers(r, db.ledger, rid, |r.stages|, pass, db.now);
      if AllTerminal(r) && !AnyFailed(r) {
        AllTerminalSatisfied(r);
      }
    }
  }

  // Only an event analysis can gain a stage from a scan.
  lemma {:induction false} ScanLeavesOthers(
    r: Run, ledger: seq<P.Prediction>, rid: RunId, n: nat, pass: Pass, now: Time)
    requires !r.kind.EventAnalysis? && n <= |r.stages|
    requires ScanTo(Scan(r, ledger), rid, n, pass, now).Some?
    ensures ScanTo(Scan(r, ledger), rid, n, pass, now).value.run == r
  {
    if n > 0 {
      ScanLeavesOthers(r, ledger, rid, n - 1, pass, now);
    }
  }
}
