// A run of the system, from the empty database, whose last pass would skip a due
// cross-check if its session did not read its own writes.
module MissedChecks {
  import opened Domain
  import opened Protocol
  import opened Invariants
  import opened Advancing
  import opened Sources
  import opened Witnesses
  import opened SessionReads
  import opened Starvation
  import P = Predictions
  import Q = Queue
  import X = CrossCheck

  function Target(price: real): PredictionIn {
    PredictionIn(TargetPrice, Some(1), Some(price), Some("USD"), None, None, None, None, None, None)
  }

  function Priced(price: real): Stage {
    Done(AUTHOR, 0.0, Result([Target(price)]))
  }

  function Analysis(status: RunStatus, author: Stage): Run {
    Run(0, EventAnalysis, status, 100, 0.0, 0.0, 0.0, Some("h"), [author], [])
  }

  function RowFor(rid: RunId, price: real): P.Prediction {
    P.NewRow(P.Origin(0, rid, 1, "h", 0.0), Target(price))
  }

  lemma OneEntry(price: real)
    ensures P.Entries([Target(price)]) == [Target(price)] && P.Insertable(Target(price))
  {
    assert [Target(price)][..0] == [];
  }

  lemma {:induction false} Registers(ledger: seq<P.Prediction>, rid: RunId, price: real)
    requires forall i | 0 <= i < |ledger| :: ledger[i].key != P.OfKey(P.KeyOf(rid, 1, Target(price)))
    ensures P.Register(ledger, P.Origin(0, rid, 1, "h", 0.0), [Target(price)]) == Some(ledger + [RowFor(rid, price)])
  {
    var o := P.Origin(0, rid, 1, "h", 0.0);
    OneEntry(price);
    assert [Target(price)][..0] == [];
    assert P.Register(ledger, o, []) == Some(ledger);
    assert !P.HasKey(ledger, P.KeyOf(rid, 1, Target(price)));
  }

  lemma AnalysisIsNext(db: Db, rid: RunId)
    requires rid < |db.runs| && Alone(db, rid) && db.now == 0.0 && db.runs[rid] == Analysis(RunStatus.Running, AUTHOR)
    ensures Q.Eligible(db.runs, rid, 0, 0.0, ANY_STAGE) && OnlyChoice(db, rid, 0)
  {
  }

  // An analysis is created, promoted and worked, on a ticker that is free.
  lemma Analysed(db: Db, result: StageResult) returns (after: Db)
    requires Reachable(db) && Ready(db) && db.locks == map[]
    requires forall q: RunId | q < |db.runs| :: !db.runs[q].status.Running?
    ensures Reachable(after) && Ready(after)
    ensures after == db.(
              runs := db.runs + [Analysis(RunStatus.Running, Done(AUTHOR, 0.0, result))], locks := map[0 := |db.runs|])
  {
    var rid := |db.runs|;
    var made := Created(db, EventAnalysis, None);
    assert made.runs == db.runs + [Analysis(RunStatus.Queued, AUTHOR)];
    var going := Promote(made, rid, HOUSES).value.db;
    Onwards(made, Promoting(rid, HOUSES), going);
    assert going.runs == db.runs + [Analysis(RunStatus.Running, AUTHOR)];
    AnalysisIsNext(going, rid);
    var done := Done(AUTHOR, 0.0, result);
    after := StageWorked(going, rid, 0, 0.0, result);
    assert [AUTHOR][0 := done] == [done];
    OneCost(done);
    assert after.runs == db.runs + [Analysis(RunStatus.Running, done)];
  }

  lemma AnalysisEnds(db: Db, rid: RunId, price: real)
    requires |db.coverages| == 1 && db.now == 0.0 && rid < |db.runs|
    requires db.runs[rid] == Analysis(RunStatus.Running, Priced(price))
    ensures Conclude(db, rid) == Some(EndedDb(db, rid, RunStatus.Succeeded))
  {
    var r := db.runs[rid];
    assert AllTerminal(r) && !AnyFailed(r) && !BackoffPending(r, 0.0) && !OverBudget(r);
    ConcludeExact(db, rid);
  }

  // The first analysis succeeds and leaves a target price of one hundred.
  lemma FirstTarget() returns (db: Db)
    ensures Reachable(db) && Ready(db) && db.locks == map[]
    ensures db.runs == [Analysis(RunStatus.Succeeded, Priced(100.0))] && db.ledger == [RowFor(0, 100.0)]
  {
    var begun := Begun();
    var worked := Analysed(begun, Result([Target(100.0)]));
    assert worked.runs == [Analysis(RunStatus.Running, Priced(100.0))];
    db := FirstPass(worked, 100.0);
  }

  lemma FirstPass(worked: Db, price: real) returns (db: Db)
    requires Reachable(worked) && Ready(worked) && worked.locks == map[0 := 0] && worked.ledger == []
    requires worked.runs == [Analysis(RunStatus.Running, Priced(price))]
    ensures Reachable(db) && Ready(db) && db.locks == map[]
    ensures db.runs == [Analysis(RunStatus.Succeeded, Priced(price))] && db.ledger == [RowFor(0, price)]
  {
    var scanned := worked.(ledger := [RowFor(0, price)]);
    FirstScan(worked, 0, price);
    AnalysisEnds(scanned, 0, price);
    db := EndedDb(scanned, 0, RunStatus.Succeeded);
    PassedBy(worked, scanned, db);
    Onwards(worked, Advancing(0, QUIET), db);
    assert db.locks == map[];
  }

  lemma FirstScan(db: Db, rid: RunId, price: real)
    requires Ready(db) && db.ledger == []
    requires rid < |db.runs| && db.runs[rid] == Analysis(RunStatus.Running, Priced(price))
    ensures ScanOf(db, rid, QUIET) == Some(Scan(db.runs[rid], [RowFor(rid, price)]))
  {
    var r := db.runs[rid];
    OneEntry(price);
    Registers([], rid, price);
    assert [] + [RowFor(rid, price)] == [RowFor(rid, price)];
    assert ScanTo(Scan(r, []), rid, 0, QUIET, 0.0) == Some(Scan(r, []));
    assert ScanStage(Scan(r, []), rid, 0, QUIET, 0.0) == Some(Scan(r, [RowFor(rid, price)]));
  }

  lemma PassedBy(db: Db, scanned: Db, after: Db)
    requires |db.runs| == 1 && db.runs[0].status.Running?
    requires ScanOf(db, 0, QUIET) == Some(Scan(db.runs[0], scanned.ledger)) && scanned == db.(ledger := scanned.ledger)
    requires Conclude(scanned, 0) == Some(after)
    ensures Advance(db, 0, QUIET) == Some(after)
  {
    assert AfterScan(db, 0, Scan(db.runs[0], scanned.ledger)) == scanned;
  }

  const MOVED := Pass(FUND, [], Some(100.0))

  // A second analysis doubles the target: a cross-check is due.
  lemma SecondTarget() returns (db: Db)
    ensures Reachable(db) && Ready(db) && db.ledger == [RowFor(0, 100.0)]
    ensures db.runs == [Analysis(RunStatus.Succeeded, Priced(100.0)), Analysis(RunStatus.Running, Priced(200.0))]
    ensures P.IsLastTarget(db.ledger, 0, MOVED.lastTp)
  {
    var first := FirstTarget();
    db := Analysed(first, Result([Target(200.0)]));
    assert P.IsTarget(db.ledger[0], 0);
  }

  lemma CheckIsDue()
    ensures X.AutoCrossCheck(Some(Result([Target(200.0)])), Some(100.0), 5.0)
  {
    assert X.ExtractTarget([Target(200.0)]) == Some(200.0);
    assert X.Abs(100.0) / X.Abs(100.0) * 100.0 == 100.0;
  }

  lemma SecondScan(db: Db)
    requires Ready(db) && db.ledger == [RowFor(0, 100.0)] && |db.runs| == 2
    requires db.runs[1] == Analysis(RunStatus.Running, Priced(200.0))
    ensures ScanOf(db, 1, MOVED).Some? && ScanOf(db, 1, MOVED).value.ledger == [RowFor(0, 100.0), RowFor(1, 200.0)]
  {
    var r := db.runs[1];
    OneEntry(200.0);
    Registers(db.ledger, 1, 200.0);
    assert db.ledger + [RowFor(1, 200.0)] == [RowFor(0, 100.0), RowFor(1, 200.0)];
    assert ScanTo(Scan(r, db.ledger), 1, 0, MOVED, 0.0) == Some(Scan(r, db.ledger));
    assert MaybeAppend(r, r.stages[0], MOVED, 0.0).Some?;
  }

  // The state exists: without its own writes in view, the pass over the second analysis
  // ends it as succeeded while the cross-check it has just asked for is still queued.
  lemma StalePassMissesIt()
    ensures exists db: Db :: Reachable(db) && MissesCheck(db)
  {
    var db := SecondTarget();
    ReachableIsGood(db);
    StaleMisses(db);
  }

  lemma FundIsFine()
    ensures FundOk(FUND)
  {
  }

  lemma StaleMisses(db: Db)
    requires Inv(db) && Ready(db) && db.ledger == [RowFor(0, 100.0)] && P.IsLastTarget(db.ledger, 0, MOVED.lastTp)
    requires |db.runs| == 2 && db.runs[1] == Analysis(RunStatus.Running, Priced(200.0))
    ensures MissesCheck(db)
  {
    FundIsFine();
    SecondScan(db);
    StalePassEnds(db);
    StaleEndsUnchecked(db);
  }

  lemma StaleEndsUnchecked(db: Db)
    requires Inv(db) && |db.runs| == 2 && db.runs[1] == Analysis(RunStatus.Running, Priced(200.0)) && FundOk(FUND)
    requires StaleAdvance(db, 1, MOVED).Some?
    requires AllSatisfied(db.runs[1]) && !OverBudget(db.runs[1]) && !HasCrossCheck(db.runs[1])
    ensures var t := StaleAdvance(db, 1, MOVED).value.runs[1];
            t.status.Succeeded? && !AllSatisfied(t)
  {
    CheckIsDue();
    StalePassSucceedsUncheckedIff(db, 1, MOVED);
  }

  lemma StalePassEnds(db: Db)
    requires |db.coverages| == 1 && db.now == 0.0 && |db.runs| == 2
    requires db.runs[1] == Analysis(RunStatus.Running, Priced(200.0)) && ScanOf(db, 1, MOVED).Some?
    ensures StaleAdvance(db, 1, MOVED).Some? && |StaleAdvance(db, 1, MOVED).value.runs| == 2
    ensures AllSatisfied(db.runs[1]) && !OverBudget(db.runs[1]) && !HasCrossCheck(db.runs[1])
  {
    var r := db.runs[1];
    assert AllTerminal(r) && !AnyFailed(r) && !BackoffPending(r, 0.0) && !OverBudget(r) && AllSatisfied(r);
    ConcludeExact(db.(ledger := ScanOf(db, 1, MOVED).value.ledger), 1);
  }

  ghost predicate MissesCheck(db: Db) {
    && |db.runs| == 2 && Enabled(db, Advancing(1, MOVED)) && StaleAdvance(db, 1, MOVED).Some?
    && var after := StaleAdvance(db, 1, MOVED).value;
       |after.runs| == 2 && after.runs[1].status.Succeeded? && !AllSatisfied(after.runs[1])
  }

  // ---- a result the ledger refuses

  const GUESS := Target(1.0).(kind := Unlisted("guess"))

  // An analysis whose result names a kind the table does not list: no pass over it, and so
  // no tick, can ever go through.
  lemma RefusedResultChokes()
    ensures exists db: Db :: Reachable(db) && Choked(db, 0)
  {
    var begun := Begun();
    var db := Analysed(begun, Result([GUESS]));
    var s := Done(AUTHOR, 0.0, Result([GUESS]));
    assert [GUESS][..0] == [];
    assert P.Entries([GUESS]) == [GUESS];
    assert db.runs == [Analysis(RunStatus.Running, s)];
    assert !P.Insertable(GUESS) && GUESS in P.Entries([GUESS]);
    assert Unregistrable(s);
    assert Unregistrable(db.runs[0].stages[0]);
    assert Choked(db, 0);
  }
}
