// The orchestrator engine on a session (core/orchestrator/engine.py): creating and
// promoting runs, one advance pass, and the three ways a pass can end a run.
//
// Where a method answers false the original raises; the session may then be half written
// and its owner rolls it back.
module Engine {
  import opened Domain
  import opened Protocol
  import opened Invariants
  import opened Advancing
  import opened Store
  import R = RunMachine
  import C = CoverageMachine
  import P = Predictions
  import X = CrossCheck
  import Plans = Planner
  import RunStore
  import CoverageStore
  import LedgerStore

  method CreateRun(s: Session, fund: Fund, req: Request) returns (ok: bool)
    modifies s
    ensures ok <==> Protocol.CreateRun(old(s.View()), fund, req).Some?
    ensures ok ==> Some(s.View()) == Protocol.CreateRun(old(s.View()), fund, req)
    ensures !ok ==> s.View() == old(s.View())
  {
    if req.kind !in fund.policies || req.coverage.None? || req.coverage.value >= |s.coverages| {
      return false;
    }
    var args := PlanArgs(s.View(), fund, req);
    var plan := Plans.Plan(req.kind, args);
    if req.kind.Initiation? {
      plan := Plans.PlanInitiation(args);
    }
    if plan.None? {
      return false;
    }
    ok := RunStore.CreateRun(s, req.coverage.value, req.kind,
                             if req.priority.Some? then req.priority.value else 100,
                             fund.policies[req.kind].budgetCap, StoredLead(req, args.lead), plan.value, req.houses);
  }

  // Start a queued run if the ticker is free; an initiation takes its coverage along.
  method PromoteRun(s: Session, rid: RunId, houses: set<House>) returns (ok: bool, started: bool)
    requires rid < |s.runs|
    modifies s
    ensures ok <==> Promote(old(s.View()), rid, houses).Some?
    ensures ok ==> Promote(old(s.View()), rid, houses) == Some(Started(s.View(), started))
    ensures ok ==> Next(old(s.View()), Promoting(rid, houses), s.View())
  {
    if !s.runs[rid].status.Queued? {
      return true, false;
    }
    var won := RunStore.StartRun(s, rid);
    if !won {
      return true, false;
    }
    var r := s.runs[rid];
    if r.kind.Initiation? && r.coverage < |s.coverages| && s.coverages[r.coverage].state.Proposed? {
      var moved := CoverageStore.Transition(s, r.coverage, C.StartInitiation, Some(rid), false, false, false);
      if !moved.Taken? || !KnownLead(r.leadHouse, houses) {
        return false, false;
      }
    }
    return true, true;
  }

  // ---- scanning the finished stages

  // Entries without a kind are skipped.
  method CollectEntries(ps: seq<PredictionIn>) returns (entries: seq<PredictionIn>)
    ensures entries == P.Entries(ps)
  {
    entries := [];
    for i := 0 to |ps|
      invariant entries == P.Entries(ps[..i])
    {
      assert ps[..i + 1][..i] == ps[..i];
      if !ps[i].kind.Blank? {
        entries := entries + [ps[i]];
      }
    }
    assert ps[..|ps|] == ps;
  }

  method RegisterPredictions(s: Session, rid: RunId, stage: Stage) returns (ok: bool)
    requires rid < |s.runs| && Scanned(stage)
    modifies s
    ensures var after := P.Register(old(s.ledger), OriginOf(old(s.runs)[rid], rid, stage, old(s.now)),
        P.Entries(stage.result.value.predictions));
            (ok <==> after.Some?) && (ok ==> s.View() == old(s.View()).(ledger := after.value))
  {
    var entries := CollectEntries(stage.result.value.predictions);
    if entries == [] {
      return true;
    }
    ok := LedgerStore.RegisterFromStage(s, OriginOf(s.runs[rid], rid, stage, s.now), entries);
  }

  method FindMaxSeq(stages: seq<Stage>) returns (m: nat)
    ensures m == MaxSeq(stages)
  {
    m := 0;
    for k := 0 to |stages|
      invariant m == MaxSeq(stages[..k])
    {
      assert stages[..k + 1][..k] == stages[..k];
      if stages[k].seqNo > m {
        m := stages[k].seqNo;
      }
    }
    assert stages[..|stages|] == stages;
  }

  // False: the run's type has no policy.
  method MaybeAppendCrossCheck(s: Session, rid: RunId, author: Stage, pass: Pass) returns (ok: bool)
    requires rid < |s.runs|
    modifies s
    ensures var after := MaybeAppend(old(s.runs)[rid], author, pass, old(s.now));
            (ok <==> after.Some?) && (ok ==> s.View() == Protocol.SetRun(old(s.View()), rid, after.value))
    ensures !ok ==> s.View() == old(s.View())
  {
    var r := s.runs[rid];
    if !X.AutoCrossCheck(author.result, pass.lastTp, pass.fund.tpChangePct) {
      assert s.runs == s.runs[rid := r];
      return true;
    }
    for k := 0 to |r.stages|
      invariant forall j | 0 <= j < k :: !r.stages[j].role.CrossCheck?
    {
      if r.stages[k].role.CrossCheck? {
        assert s.runs == s.runs[rid := r];
        return true;
      }
    }
    var house := if |pass.contributors| > 0 then pass.contributors[0] else author.house;
    var last := FindMaxSeq(r.stages);
    if r.kind !in pass.fund.policies {
      return false;
    }
    var stage := Stage(last + 1, Role.CrossCheck, house, Harness, StageStatus.Queued, Some(author.seqNo), s.now,
                       None, None, None, 0, pass.fund.policies[r.kind].maxAttempts, None, 0.0, []);
    s.SetRun(rid, r.(stages := r.stages + [stage]));
    return true;
  }

  lemma {:induction false} ScanStops(start: Scan, rid: RunId, i: nat, n: nat, pass: Pass, now: Time)
    requires i <= n <= |start.run.stages| && ScanTo(start, rid, i, pass, now).None?
    ensures ScanTo(start, rid, n, pass, now).None?
    decreases n
  {
    if i < n {
      ScanStops(start, rid, i, n - 1, pass, now);
    }
  }

  lemma {:induction false} SomeLastTarget(ledger: seq<P.Prediction>, c: CoverageId, n: nat) returns (best: Option<nat>)
    requires n <= |ledger|
    ensures LedgerStore.NewestUpTo(ledger, c, best, n)
  {
    if n == 0 {
      return None;
    }
    best := SomeLastTarget(ledger, c, n - 1);
    var row := ledger[n - 1];
    if P.IsTarget(row, c) && (best.None? || row.createdAt.num > ledger[best.value].createdAt.num) {
      best := Some(n - 1);
    }
  }

  lemma LastTargetExists(ledger: seq<P.Prediction>, c: CoverageId) returns (tp: Option<real>)
    ensures P.IsLastTarget(ledger, c, tp)
  {
    var best := SomeLastTarget(ledger, c, |ledger|);
    tp := if best.Some? && ledger[best.value].value.Num? then Some(ledger[best.value].value.num) else None;
  }

  predicate IsEventAuthor(r: Run, stage: Stage) {
    r.kind.EventAnalysis? && stage.role.Author?
  }

  // One finished stage: register what it predicted, and append a cross-check where an
  // author moved the target price; the price it moved from is read before registering.
  method ScanOne(s: Session, rid: RunId, k: nat, fund: Fund, contributors: seq<House>, ghost tp: Option<real>)
    returns (ok: bool, ghost used: Option<real>)
    requires AtStage(s.View(), rid, k)
    modifies s
    ensures var r := old(s.runs)[rid];
            if Scanned(r.stages[k]) && IsEventAuthor(r, r.stages[k])
                then P.IsLastTarget(old(s.ledger), r.coverage, used)
            else used == tp
    ensures var after := ScanStage(Scan(old(s.runs)[rid], old(s.ledger)), rid, k, Pass(fund, contributors, used),
        old(s.now));
            (ok <==> after.Some?) && (ok ==> s.View() == AfterScan(old(s.View()), rid, after.value))
  {
    used := tp;
    var stage := s.runs[rid].stages[k];
    assert s.runs == s.runs[rid := s.runs[rid]];
    if !Scanned(stage) {
      return true, used;
    }
    var isAuthor := IsEventAuthor(s.runs[rid], stage);
    var lastTp: Option<real> := None;
    if isAuthor {
      lastTp := LedgerStore.LastTargetPrice(s.ledger, s.runs[rid].coverage);
      used := lastTp;
    }
    ok := RegisterPredictions(s, rid, stage);
    if ok && isAuthor {
      ok := MaybeAppendCrossCheck(s, rid, stage, Pass(fund, contributors, lastTp));
    }
  }

  // How far the scan has come.
  ghost predicate ScannedTo(before: Db, now: Db, rid: RunId, i: nat, pass: Pass)
    requires rid < |before.runs| && i <= |before.runs[rid].stages|
  {
    var scan := ScanTo(Scan(before.runs[rid], before.ledger), rid, i, pass, before.now);
    scan.Some? && now == AfterScan(before, rid, scan.value)
  }

  // One stage further. The target price used so far matters only once an author has been
  // scanned, and the only author is the first stage.
  lemma ScanOneMore(before: Db, mid: Db, rid: RunId, i: nat, pass: Pass, used: Option<real>)
    requires rid < |before.runs| && i < |before.runs[rid].stages| && FirstIsOnlyAuthor(before.runs[rid])
    requires ScannedTo(before, mid, rid, i, pass)
    requires used == pass.lastTp || IsEventAuthor(mid.runs[rid], before.runs[rid].stages[i])
    ensures i < |mid.runs[rid].stages| && mid.runs[rid].stages[i] == before.runs[rid].stages[i]
    ensures mid.now == before.now && mid.runs[rid].coverage == before.runs[rid].coverage
        && (i == 0 ==> mid.ledger == before.ledger)
    ensures var next := pass.(lastTp := used);
            ScanTo(Scan(before.runs[rid], before.ledger), rid, i + 1, next, before.now)
            == ScanStage(Scan(mid.runs[rid], mid.ledger), rid, i, next, mid.now)
  {
    ScanRunExact(Scan(before.runs[rid], before.ledger), rid, i, pass, before.now);
    var acc := ScanTo(Scan(before.runs[rid], before.ledger), rid, i, pass, before.now).value;
    assert acc == Scan(mid.runs[rid], mid.ledger);
    if used == pass.lastTp {
      assert pass.(lastTp := used) == pass;
    } else {
      assert i == 0;
    }
  }

  method ScanNext(
    s: Session, rid: RunId, i: nat, fund: Fund, contributors: seq<House>, ghost before: Db, ghost pass: Pass)
    returns (ok: bool, ghost next: Pass)
    requires rid < |before.runs| && i < |before.runs[rid].stages| && FirstIsOnlyAuthor(before.runs[rid])
    requires pass.fund == fund && pass.contributors == contributors
    requires ScannedTo(before, s.View(), rid, i, pass)
        && P.IsLastTarget(before.ledger, before.runs[rid].coverage, pass.lastTp)
    modifies s
    ensures next.fund == fund && next.contributors == contributors
    ensures P.IsLastTarget(before.ledger, before.runs[rid].coverage, next.lastTp)
    ensures if ok then ScannedTo(before, s.View(), rid, i + 1, next)
            else ScanTo(Scan(before.runs[rid], before.ledger), rid, i + 1, next, before.now).None?
  {
    ScanOneMore(before, s.View(), rid, i, pass, pass.lastTp);
    ghost var mid := s.View();
    ghost var used;
    ok, used := ScanOne(s, rid, i, fund, contributors, pass.lastTp);
    ScanOneMore(before, mid, rid, i, pass, used);
    next := pass.(lastTp := used);
    assert ok ==> before.runs[rid := mid.runs[rid]][rid := s.runs[rid]] == before.runs[rid := s.runs[rid]];
  }

  // Every stage the run had when the pass began, in order.
  method ScanStages(s: Session, rid: RunId, fund: Fund, contributors: seq<House>) returns (ok: bool, ghost pass: Pass)
    requires rid < |s.runs| && FirstIsOnlyAuthor(s.runs[rid])
    modifies s
    ensures pass.fund == fund && pass.contributors == contributors
    ensures P.IsLastTarget(old(s.ledger), old(s.runs)[rid].coverage, pass.lastTp)
    ensures ok <==> ScanOf(old(s.View()), rid, pass).Some?
    ensures ok ==> s.View() == AfterScan(old(s.View()), rid, ScanOf(old(s.View()), rid, pass).value)
  {
    var n := |s.runs[rid].stages|;
    ghost var before := s.View();
    ghost var tp := LastTargetExists(s.ledger, s.runs[rid].coverage);
    pass := Pass(fund, contributors, tp);
    assert s.runs == s.runs[rid := s.runs[rid]];
    for i := 0 to n
      invariant pass.fund == fund && pass.contributors == contributors
      invariant P.IsLastTarget(before.ledger, before.runs[rid].coverage, pass.lastTp)
      invariant ScannedTo(before, s.View(), rid, i, pass)
    {
      ok, pass := ScanNext(s, rid, i, fund, contributors, before, pass);
      if !ok {
        ScanStops(Scan(before.runs[rid], before.ledger), rid, i + 1, n, pass, before.now);
        return false, pass;
      }
    }
    return true, pass;
  }

  // ---- ending a pass

  method FailRun(s: Session, rid: RunId) returns (ok: bool)
    requires rid < |s.runs|
    modifies s
    ensures ok <==> Protocol.FailRun(old(s.View()), rid).Some?
    ensures ok ==> Some(s.View()) == Protocol.FailRun(old(s.View()), rid)
  {
    var r := s.runs[rid];
    if r.kind.Initiation? && r.coverage < |s.coverages| && s.coverages[r.coverage].state.Initiating? {
      var moved := CoverageStore.Transition(s, r.coverage, C.InitiationFailed, Some(rid), false, false, false);
      if !moved.Taken? {
        return false;
      }
    }
    ok := RunStore.FinishRun(s, rid, RunStatus.Failed);
  }

  method PauseForBudget(s: Session, rid: RunId) returns (ok: bool)
    requires rid < |s.runs|
    modifies s
    ensures ok <==> Protocol.PauseForBudget(old(s.View()), rid).Some?
    ensures ok ==> Some(s.View()) == Protocol.PauseForBudget(old(s.View()), rid)
  {
    RunStore.OpenGate(s, rid, BUDGET_GATE);
    ok := RunStore.Restatus(s, rid, R.OpenGate);
  }

  method FinalizeRun(s: Session, rid: RunId) returns (ok: bool)
    requires rid < |s.runs|
    modifies s
    ensures ok <==> Protocol.FinalizeRun(old(s.View()), rid).Some?
    ensures ok ==> Some(s.View()) == Protocol.FinalizeRun(old(s.View()), rid)
  {
    var r := s.runs[rid];
    if r.kind.Initiation? && r.coverage < |s.coverages| {
      var delivered := CoverageStore.Transition(s, r.coverage, C.InitiationDelivered, Some(rid), false, false, false);
      if !delivered.Taken? || rid >= |s.runs| {
        return false;
      }
      ok := RunStore.Restatus(s, rid, R.OpenGate);
    } else {
      ok := RunStore.FinishRun(s, rid, RunStatus.Succeeded);
    }
  }

  // Failed, waiting for a retry, over budget, unfinished, or done: the first that applies.
  method Conclude(s: Session, rid: RunId) returns (ok: bool)
    requires rid < |s.runs|
    modifies s
    ensures ok <==> Protocol.Conclude(old(s.View()), rid).Some?
    ensures ok ==> Some(s.View()) == Protocol.Conclude(old(s.View()), rid)
  {
    var r := s.runs[rid];
    if AnyFailed(r) {
      ok := FailRun(s, rid);
    } else if BackoffPending(r, s.now) {
      ok := RunStore.RequeueRun(s, rid);
    } else if OverBudget(r) {
      ok := PauseForBudget(s, rid);
    } else if !AllTerminal(r) {
      ok := true;
    } else {
      ok := FinalizeRun(s, rid);
    }
  }

  // What follows the draining of the queue in one advance pass.
  method FinishPass(s: Session, rid: RunId, fund: Fund, contributors: seq<House>) returns (ok: bool, ghost pass: Pass)
    requires Inv(s.View()) && rid < |s.runs| && s.runs[rid].status.Running?
    modifies s
    ensures pass.fund == fund && pass.contributors == contributors
    ensures P.IsLastTarget(old(s.ledger), old(s.runs)[rid].coverage, pass.lastTp)
    ensures ok <==> Advance(old(s.View()), rid, pass).Some?
    ensures ok ==> Some(s.View()) == Advance(old(s.View()), rid, pass)
  {
    assert RunOk(s.runs[rid]);
    ok, pass := ScanStages(s, rid, fund, contributors);
    if ok {
      ok := Conclude(s, rid);
    }
  }
}
