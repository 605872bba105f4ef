// No event analysis whose author moved the target price too far succeeds unchecked, and
// no result is registered twice, over every run of the system.
module CrossChecks {
  import opened Domain
  import opened Protocol
  import opened Invariants
  import opened Advancing
  import opened Sources
  import opened Traces
  import P = Predictions
  import Q = Queue
  import X = CrossCheck
  import Safety

  // Step i is an advance pass over the running event analysis rid that sees the result of
  // its author.
  ghost predicate Sees(tr: Trace, i: nat, rid: RunId) {
    && i < |tr.steps| && i < |tr.states|
    && tr.steps[i].Advancing? && tr.steps[i].rid == rid
    && rid < |tr.states[i].runs|
    && tr.states[i].runs[rid].status.Running? && SeesAuthor(tr.states[i].runs[rid])
  }

  ghost predicate FirstSees(tr: Trace, i: nat, rid: RunId) {
    Sees(tr, i, rid) && forall h: nat | h < i :: !Sees(tr, h, rid)
  }

  lemma {:induction false} LeastSees(tr: Trace, i: nat, rid: RunId) returns (f: nat)
    requires Sees(tr, i, rid)
    ensures f <= i && FirstSees(tr, f, rid)
  {
    if h: nat :| h < i && Sees(tr, h, rid) {
      f := LeastSees(tr, h, rid);
    } else {
      f := i;
    }
  }

  // ---- a pass that sees a material move leaves a cross-check behind

  lemma PassAppends(db: Db, rid: RunId, pass: Pass, after: Db)
    requires Inv(db) && FundOk(pass.fund) && rid < |db.runs| && db.runs[rid].status.Running? && SeesAuthor(db.runs[rid])
    requires Advance(db, rid, pass) == Some(after)
    requires X.AutoCrossCheck(db.runs[rid].stages[0].result, pass.lastTp, pass.fund.tpChangePct)
    ensures rid < |after.runs| && HasCrossCheck(after.runs[rid])
  {
    var r := db.runs[rid];
    var mid := AfterScan(db, rid, ScanOf(db, rid, pass).value);
    AdvanceOutcome(db, rid, pass, after);
    ConcludeOutcome(mid, rid, after);
    assert RunOk(r);
    ScanRunExact(Scan(r, db.ledger), rid, |r.stages|, pass, db.now);
    AppendKeeps(r, pass, db.now);
    var j :| 0 <= j < |mid.runs[rid].stages| && mid.runs[rid].stages[j].role.CrossCheck?;
    assert after.runs[rid].stages[j].role.CrossCheck?;
  }

  lemma CrossCheckStays(r: Run, t: Run)
    requires RunEvolves(r, t) && HasCrossCheck(r)
    ensures HasCrossCheck(t)
  {
    var j :| 0 <= j < |r.stages| && r.stages[j].role.CrossCheck?;
    assert Q.StageEvolves(r.stages[j], t.stages[j]);
  }

  ghost predicate CrossChecked(r: Run) {
    exists j :: 0 <= j < |r.stages| && r.stages[j].role.CrossCheck? && Satisfied(r.stages[j].status)
  }

  lemma SucceededIsChecked(r: Run)
    requires RunOk(r) && r.status.Succeeded? && HasCrossCheck(r)
    ensures CrossChecked(r)
  {
    var j :| 0 <= j < |r.stages| && r.stages[j].role.CrossCheck?;
    assert Satisfied(r.stages[j].status);
  }

  // ---- an event analysis succeeds only in a pass that sees its author

  lemma WaitersAreInitiations(r: Run)
    requires RunOk(r)
    ensures AtDecisionGate(r) ==> r.kind.Initiation?
  {
    assert |r.gates| == 1 ==> GateOk(r, r.gates[0]);
  }

  lemma EndsSeen(db: Db, step: Step, after: Db, rid: RunId)
    requires Inv(db) && Next(db, step, after) && rid < |db.runs| && rid < |after.runs|
    requires !db.runs[rid].status.Succeeded? && after.runs[rid].status.Succeeded?
    requires after.runs[rid].kind.EventAnalysis? && Inv(after) && Truthy(after.runs[rid].stages[0].result)
    ensures step.Advancing? && step.rid == rid && db.runs[rid].status.Running? && SeesAuthor(db.runs[rid])
  {
    NextKeeps(db, step, after);
    assert RunEvolves(db.runs[rid], after.runs[rid]);
    assert RunOk(db.runs[rid]);
    assert RunOk(after.runs[rid]);
    WaitersAreInitiations(db.runs[rid]);
    StandingSource(db, step, after, rid);
    assert step.Advancing? && step.rid == rid && db.runs[rid].status.Running?;
    Safety.AdvanceStages(db, step, after, rid, 0);
    assert Satisfied(after.runs[rid].stages[0].status);
    assert Q.StageOk(after.runs[rid].stages[0]);
  }

  // A succeeded event analysis whose author returned a result.
  predicate Wins(r: Run) {
    r.kind.EventAnalysis? && r.status.Succeeded? && |r.stages| > 0 && Truthy(r.stages[0].result)
  }

  lemma {:induction false} SucceededWasSeen(tr: Trace, j: nat, rid: RunId) returns (i: nat)
    requires Valid(tr) && j < |tr.states| && rid < |tr.states[j].runs| && Wins(tr.states[j].runs[rid])
    ensures i < j && Sees(tr, i, rid)
  {
    if j > 0 {
      SuccessSource(tr, j - 1, rid);
      if Sees(tr, j - 1, rid) {
        i := j - 1;
      } else {
        i := SucceededWasSeen(tr, j - 1, rid);
      }
    }
  }

  lemma WonBefore(db: Db, step: Step, after: Db, rid: RunId)
    requires Inv(db) && Next(db, step, after) && rid < |db.runs| && db.runs[rid].status.Succeeded?
    requires rid < |after.runs| && Wins(after.runs[rid])
    ensures Wins(db.runs[rid])
  {
    NextKeeps(db, step, after);
    assert RunOk(db.runs[rid]) && RunEvolves(db.runs[rid], after.runs[rid]);
    SucceededFrozen(db.runs[rid], after.runs[rid]);
  }

  // A run succeeds in a pass that sees its author, or had succeeded before with that result.
  lemma SuccessStep(db: Db, step: Step, after: Db, rid: RunId)
    requires Inv(db) && Next(db, step, after) && rid < |after.runs| && Wins(after.runs[rid])
    ensures rid < |db.runs|
    ensures || Wins(db.runs[rid])
            || (step.Advancing? && step.rid == rid && db.runs[rid].status.Running? && SeesAuthor(db.runs[rid]))
  {
    NextKeeps(db, step, after);
    NewRunQueued(db, step, after, rid);
    if db.runs[rid].status.Succeeded? {
      WonBefore(db, step, after, rid);
    } else {
      EndsSeen(db, step, after, rid);
    }
  }

  lemma SuccessSource(tr: Trace, i: nat, rid: RunId)
    requires Valid(tr) && i < |tr.steps| && rid < |tr.states[i + 1].runs| && Wins(tr.states[i + 1].runs[rid])
    ensures Sees(tr, i, rid) || (rid < |tr.states[i].runs| && Wins(tr.states[i].runs[rid]))
  {
    InvAlways(tr, i);
    StepTaken(tr, i);
    SuccessStep(tr.states[i], tr.steps[i], tr.states[i + 1], rid);
  }

  lemma SucceededFrozen(r: Run, t: Run)
    requires RunOk(r) && RunEvolves(r, t) && r.status.Succeeded?
    ensures t.kind == r.kind && |r.stages| > 0 && |t.stages| > 0 && t.stages[0] == r.stages[0]
  {
    assert Satisfied(r.stages[0].status);
    assert Q.StageEvolves(r.stages[0], t.stages[0]);
  }

  lemma NewRunQueued(db: Db, step: Step, after: Db, rid: RunId)
    requires Inv(db) && Next(db, step, after) && rid < |after.runs| && !after.runs[rid].status.Queued?
    ensures rid < |db.runs|
  {
    if QueueStep(step) {
      QueueStandings(db, step, after);
    } else if step.Promoting? {
      PromoteStandings(db, step.rid, step.houses, Promote(db, step.rid, step.houses).value, rid);
    } else if step.Advancing? {
      AdvanceStandings(db, step, after, rid);
    } else if step.Deciding? {
      DecideStandings(db, step, after, rid);
    } else if step.Cancelling? {
      CancelStandings(db, step, after, rid);
    } else if step.Proposing? || step.Steering? || step.Leading? {
      SteerStandings(db, step, after, rid);
    } else if step.Creating? {
      CreateStandings(db, step, after);
    } else if step.Answering? {
      AnswerStandings(db, step, after);
    } else {
      IdleStandings(db, step, after);
    }
  }

  // ---- the baseline is not the author's own price

  predicate FromAuthor(p: P.Prediction, rid: RunId) {
    p.run == P.Ref(rid) && p.stage == P.Ref(1)
  }

  ghost predicate AuthorUnregistered(ledger: seq<P.Prediction>, rid: RunId) {
    forall p | 0 <= p < |ledger| :: !FromAuthor(ledger[p], rid)
  }

  // Scanning adds rows of an author only when it sees the author's result.
  lemma {:induction false} ScanRegistersSeen(start: Scan, rid: RunId, n: nat, pass: Pass, now: Time)
    requires n <= |start.run.stages| && FirstIsOnlyAuthor(start.run)
    requires forall k | 0 <= k < |start.run.stages| :: start.run.stages[k].seqNo == k + 1
    requires ScanTo(start, rid, n, pass, now).Some?
    requires start.run.stages != [] && !Scanned(start.run.stages[0])
    ensures var after := ScanTo(start, rid, n, pass, now).value.ledger;
            && start.ledger <= after
            && forall p | |start.ledger| <= p < |after| :: after[p].stage != P.Ref(1)
    decreases n
  {
    if n > 0 {
      ScanRegistersSeen(start, rid, n - 1, pass, now);
      ScanRunExact(start, rid, n - 1, pass, now);
      var acc := ScanTo(start, rid, n - 1, pass, now).value;
      var s := acc.run.stages[n - 1];
      assert s == start.run.stages[n - 1];
      if Scanned(s) {
        P.RegisterAppends(acc.ledger, OriginOf(acc.run, rid, s, now), P.Entries(s.result.value.predictions));
      }
    }
  }

  lemma EditingStaysUnregistered(db: Db, step: Step, after: Db, rid: RunId)
    requires Next(db, step, after) && step.Editing? && AuthorUnregistered(db.ledger, rid)
    ensures AuthorUnregistered(after.ledger, rid)
  {
    P.UpdatePreserves(db.ledger, step.id, step.fields);
    EditKeepsOrigin(db.ledger, after.ledger, rid);
  }

  lemma AdvancingStaysUnregistered(db: Db, step: Step, after: Db, rid: RunId)
    requires Inv(db) && Next(db, step, after) && rid < |db.runs| && db.runs[rid].kind.EventAnalysis?
    requires AuthorUnregistered(db.ledger, rid) && step.Advancing? && db.runs[step.rid].status.Running?
    requires step.rid == rid ==> !SeesAuthor(db.runs[rid])
    ensures AuthorUnregistered(after.ledger, rid)
  {
    PassRegisters(db, step.rid, step.pass, after, rid);
  }

  lemma UnseenStaysUnregistered(db: Db, step: Step, after: Db, rid: RunId)
    requires Inv(db) && Next(db, step, after) && rid < |db.runs| && db.runs[rid].kind.EventAnalysis?
    requires AuthorUnregistered(db.ledger, rid)
    requires !(step.Advancing? && step.rid == rid && db.runs[rid].status.Running? && SeesAuthor(db.runs[rid]))
    ensures AuthorUnregistered(after.ledger, rid)
  {
    if step.Advancing? && db.runs[step.rid].status.Running? {
      AdvancingStaysUnregistered(db, step, after, rid);
    } else if step.Editing? {
      EditingStaysUnregistered(db, step, after, rid);
    } else {
      LedgerSource(db, step, after);
    }
  }

  lemma EditKeepsOrigin(before: seq<P.Prediction>, after: seq<P.Prediction>, rid: RunId)
    requires P.Preserves(before, after) && |after| == |before| && AuthorUnregistered(before, rid)
    ensures AuthorUnregistered(after, rid)
  {
    forall p | 0 <= p < |after| ensures !FromAuthor(after[p], rid) {
      assert P.RunRef !in P.MUTABLE && P.StageRef !in P.MUTABLE;
      assert P.Get(after[p], P.RunRef) == P.Get(before[p], P.RunRef);
      assert P.Get(after[p], P.StageRef) == P.Get(before[p], P.StageRef);
      assert !FromAuthor(before[p], rid);
    }
  }

  lemma LedgerSource(db: Db, step: Step, after: Db)
    requires Inv(db) && Next(db, step, after) && !step.Editing?
    requires !(step.Advancing? && db.runs[step.rid].status.Running?)
    ensures after.ledger == db.ledger
  {
    if QueueStep(step) {
      QueueStandings(db, step, after);
    } else if step.Promoting? {
      PromoteStandings(db, step.rid, step.houses, Promote(db, step.rid, step.houses).value, 0);
    } else if step.Advancing? {
    } else if step.Deciding? {
      DecideStandings(db, step, after, 0);
    } else if step.Cancelling? {
      CancelStandings(db, step, after, 0);
    } else if step.Proposing? || step.Steering? || step.Leading? {
      SteerStandings(db, step, after, 0);
    } else {
      PlainStandings(db, step, after, 0);
    }
  }

  lemma PassRegisters(db: Db, q: RunId, pass: Pass, after: Db, rid: RunId)
    requires Inv(db) && FundOk(pass.fund) && q < |db.runs| && db.runs[q].status.Running?
    requires Advance(db, q, pass) == Some(after)
    requires rid < |db.runs| && db.runs[rid].kind.EventAnalysis? && AuthorUnregistered(db.ledger, rid)
    requires q == rid ==> !SeesAuthor(db.runs[rid])
    ensures AuthorUnregistered(after.ledger, rid)
  {
    var r := db.runs[q];
    var mid := AfterScan(db, q, ScanOf(db, q, pass).value);
    AdvanceOutcome(db, q, pass, after);
    ConcludeOutcome(mid, q, after);
    ScanKeeps(db, q, pass);
    assert RunOk(r);
    if q == rid {
      ScanRegistersSeen(Scan(r, db.ledger), q, |r.stages|, pass, db.now);
    }
    forall p | 0 <= p < |after.ledger| ensures !FromAuthor(after.ledger[p], rid) {
      if p < |db.ledger| {
        assert after.ledger[p] == db.ledger[p];
      }
    }
  }

  lemma UnregisteredStep(tr: Trace, i: nat, rid: RunId)
    requires Valid(tr) && i < |tr.steps| && rid < |tr.states[i].runs| && tr.states[i].runs[rid].kind.EventAnalysis?
    requires !Sees(tr, i, rid) && AuthorUnregistered(tr.states[i].ledger, rid)
    ensures AuthorUnregistered(tr.states[i + 1].ledger, rid)
  {
    InvAlways(tr, i);
    StepTaken(tr, i);
    UnseenStaysUnregistered(tr.states[i], tr.steps[i], tr.states[i + 1], rid);
  }

  lemma RunWasThere(tr: Trace, i: nat, rid: RunId)
    requires Valid(tr) && i < |tr.steps| && rid < |tr.states[i + 1].runs|
    ensures rid < |tr.states[i].runs| ==> tr.states[i].runs[rid].kind == tr.states[i + 1].runs[rid].kind
    ensures rid >= |tr.states[i].runs| ==> AuthorUnregistered(tr.states[i + 1].ledger, rid)
  {
    InvAlways(tr, i);
    StepForward(tr, i);
    if rid < |tr.states[i].runs| {
      assert RunEvolves(tr.states[i].runs[rid], tr.states[i + 1].runs[rid]);
    } else {
      StepTaken(tr, i);
      NoRowsYet(tr.states[i], tr.steps[i], tr.states[i + 1], rid);
    }
  }

  lemma {:induction false} UnregisteredBefore(tr: Trace, i: nat, rid: RunId)
    requires Valid(tr) && i < |tr.states| && rid < |tr.states[i].runs| && tr.states[i].runs[rid].kind.EventAnalysis?
    requires forall h: nat | h < i :: !Sees(tr, h, rid)
    ensures AuthorUnregistered(tr.states[i].ledger, rid)
    decreases i
  {
    if i > 0 {
      RunWasThere(tr, i - 1, rid);
      if rid < |tr.states[i - 1].runs| {
        UnregisteredBefore(tr, i - 1, rid);
        UnregisteredStep(tr, i - 1, rid);
      }
    }
  }

  lemma NoRowsYet(db: Db, step: Step, after: Db, rid: RunId)
    requires Inv(db) && Next(db, step, after) && |db.runs| <= rid < |after.runs|
    ensures AuthorUnregistered(after.ledger, rid)
  {
    NewRunStep(db, step, after);
    CreateStandings(db, step, after);
  }

  // Runs appear only by being created.
  lemma NewRunStep(db: Db, step: Step, after: Db)
    requires Inv(db) && Next(db, step, after) && |db.runs| < |after.runs|
    ensures step.Creating?
  {
    if QueueStep(step) {
      QueueStandings(db, step, after);
    } else if step.Promoting? {
      PromoteStandings(db, step.rid, step.houses, Promote(db, step.rid, step.houses).value, 0);
    } else if step.Advancing? {
      AdvanceStandings(db, step, after, 0);
    } else if step.Deciding? {
      DecideStandings(db, step, after, 0);
    } else if step.Cancelling? {
      CancelStandings(db, step, after, 0);
    } else if step.Proposing? || step.Steering? || step.Leading? {
      SteerStandings(db, step, after, 0);
    } else if step.Answering? {
      AnswerStandings(db, step, after);
    } else if step.Editing? || step.Waiting? {
      IdleStandings(db, step, after);
    }
  }

  // ---- the theorem

  // What the first pass that sees the author's result compared it with, and what followed.
  ghost predicate Guarded(tr: Trace, i: nat, j: nat, rid: RunId)
    requires i < |tr.steps| && i < |tr.states| && tr.steps[i].Advancing? && j < |tr.states|
    requires rid < |tr.states[i].runs| && rid < |tr.states[j].runs| && |tr.states[j].runs[rid].stages| > 0
  {
    var pass := tr.steps[i].pass;
    && P.IsLastTarget(tr.states[i].ledger, tr.states[i].runs[rid].coverage, pass.lastTp)
    && AuthorUnregistered(tr.states[i].ledger, rid)
    && (X.AutoCrossCheck(tr.states[j].runs[rid].stages[0].result, pass.lastTp, pass.fund.tpChangePct) ==>
          CrossChecked(tr.states[j].runs[rid]))
  }

  // An event analysis whose author returned a result and which has succeeded was seen by
  // a first pass. That pass compared the author's price with the coverage's last target,
  // none of whose candidates came from that author; and if the move was material the run
  // holds a cross-check that succeeded.
  lemma NoUncheckedSuccess(tr: Trace, j: nat, rid: RunId)
    requires Valid(tr) && j < |tr.states| && rid < |tr.states[j].runs|
    requires Wins(tr.states[j].runs[rid])
    ensures exists i: nat :: i < j && FirstSees(tr, i, rid) && Guarded(tr, i, j, rid)
  {
    var seen := SucceededWasSeen(tr, j, rid);
    var i := LeastSees(tr, seen, rid);
    InvAlways(tr, i);
    InvAlways(tr, j);
    ForwardAlways(tr, i, j);
    ForwardAlways(tr, i + 1, j);
    UnregisteredBefore(tr, i, rid);
    var r, t := tr.states[i].runs[rid], tr.states[j].runs[rid];
    AuthorResultStays(r, t);
    StepTaken(tr, i);
    if X.AutoCrossCheck(t.stages[0].result, tr.steps[i].pass.lastTp, tr.steps[i].pass.fund.tpChangePct) {
      PassAppends(tr.states[i], rid, tr.steps[i].pass, tr.states[i + 1]);
      CrossCheckStays(tr.states[i + 1].runs[rid], t);
      SucceededIsChecked(t);
    }
    assert Guarded(tr, i, j, rid);
  }

  lemma AuthorResultStays(r: Run, t: Run)
    requires RunEvolves(r, t) && SeesAuthor(r)
    ensures |t.stages| > 0 && t.stages[0] == r.stages[0]
  {
    assert Q.StageEvolves(r.stages[0], t.stages[0]);
  }

  // However often a run is advanced, it never holds two cross-checks.
  lemma AtMostOneCrossCheck(tr: Trace, i: nat, rid: RunId, a: nat, b: nat)
    requires Valid(tr) && i < |tr.states| && AtStage(tr.states[i], rid, a) && AtStage(tr.states[i], rid, b)
    requires StageAt(tr.states[i], rid, a).role.CrossCheck? && StageAt(tr.states[i], rid, b).role.CrossCheck?
    ensures a == b
  {
    InvAlways(tr, i);
    assert RunOk(tr.states[i].runs[rid]);
  }

  // ---- registering once

  ghost predicate Registered(ledger: seq<P.Prediction>, rid: RunId, s: Stage)
    requires Scanned(s)
  {
    forall e | e in P.Entries(s.result.value.predictions) :: P.Insertable(e)
        && P.HasKey(ledger, P.KeyOf(rid, s.seqNo, e))
  }

  lemma RegisteredStays(before: seq<P.Prediction>, after: seq<P.Prediction>, rid: RunId, s: Stage)
    requires Scanned(s) && Registered(before, rid, s) && P.Preserves(before, after)
    ensures Registered(after, rid, s)
  {
    forall e | e in P.Entries(s.result.value.predictions) ensures P.HasKey(after, P.KeyOf(rid, s.seqNo, e)) {
      P.PreservesKeys(before, after, P.KeyOf(rid, s.seqNo, e));
    }
  }

  lemma StageRegisters(acc: Scan, rid: RunId, k: nat, pass: Pass, now: Time)
    requires k < |acc.run.stages| && ScanStage(acc, rid, k, pass, now).Some?
    ensures var after := ScanStage(acc, rid, k, pass, now).value.ledger;
            && P.Preserves(acc.ledger, after)
            && (Scanned(acc.run.stages[k]) ==> Registered(after, rid, acc.run.stages[k]))
  {
    var s := acc.run.stages[k];
    if Scanned(s) {
      P.RegisterAppends(acc.ledger, OriginOf(acc.run, rid, s, now), P.Entries(s.result.value.predictions));
    }
  }

  lemma {:induction false} ScanRegisters(start: Scan, rid: RunId, n: nat, k: nat, pass: Pass, now: Time)
    requires k < n <= |start.run.stages| && FirstIsOnlyAuthor(start.run) && Scanned(start.run.stages[k])
    requires ScanTo(start, rid, n, pass, now).Some?
    ensures Registered(ScanTo(start, rid, n, pass, now).value.ledger, rid, start.run.stages[k])
    decreases n
  {
    var acc := ScanTo(start, rid, n - 1, pass, now).value;
    ScanRunExact(start, rid, n - 1, pass, now);
    assert acc.run.stages[n - 1] == start.run.stages[n - 1];
    StageRegisters(acc, rid, n - 1, pass, now);
    if k < n - 1 {
      ScanRegisters(start, rid, n - 1, k, pass, now);
      RegisteredStays(acc.ledger, ScanTo(start, rid, n, pass, now).value.ledger, rid, start.run.stages[k]);
    }
  }

  lemma PassRegistersAll(db: Db, rid: RunId, pass: Pass, after: Db, k: nat)
    requires Inv(db) && FundOk(pass.fund) && rid < |db.runs| && db.runs[rid].status.Running?
    requires Advance(db, rid, pass) == Some(after) && k < |db.runs[rid].stages| && Scanned(db.runs[rid].stages[k])
    ensures Registered(after.ledger, rid, db.runs[rid].stages[k])
  {
    var mid := AfterScan(db, rid, ScanOf(db, rid, pass).value);
    AdvanceOutcome(db, rid, pass, after);
    ConcludeOutcome(mid, rid, after);
    assert RunOk(db.runs[rid]);
    ScanRegisters(Scan(db.runs[rid], db.ledger), rid, |db.runs[rid].stages|, k, pass, db.now);
  }

  ghost predicate ScansStage(tr: Trace, i: nat, rid: RunId, k: nat)
    requires Valid(tr) && i < |tr.steps|
  {
    && tr.steps[i].Advancing? && tr.steps[i].rid == rid
    && AtStage(tr.states[i], rid, k) && tr.states[i].runs[rid].status.Running? && Scanned(StageAt(tr.states[i], rid, k))
  }

  lemma ScannedIsRegistered(tr: Trace, i: nat, rid: RunId, k: nat)
    requires Valid(tr) && i < |tr.steps| && ScansStage(tr, i, rid, k)
    ensures Registered(tr.states[i + 1].ledger, rid, StageAt(tr.states[i], rid, k))
  {
    InvAlways(tr, i);
    StepTaken(tr, i);
    PassRegistersAll(tr.states[i], rid, tr.steps[i].pass, tr.states[i + 1], k);
  }

  lemma ScannedStays(r: Run, t: Run, k: nat)
    requires RunEvolves(r, t) && k < |r.stages| && Scanned(r.stages[k])
    ensures k < |t.stages| && t.stages[k] == r.stages[k]
  {
    assert Q.StageEvolves(r.stages[k], t.stages[k]);
  }

  // Once a pass has scanned a succeeded stage, scanning it again at any later time adds
  // nothing to the ledger, whatever was registered, scored or superseded in between.
  lemma RescanAddsNothing(tr: Trace, i: nat, j: nat, rid: RunId, k: nat, at: Time)
    requires Valid(tr) && i < |tr.steps| && i < j < |tr.states| && ScansStage(tr, i, rid, k)
    ensures AtStage(tr.states[j], rid, k) && StageAt(tr.states[j], rid, k) == StageAt(tr.states[i], rid, k)
    ensures var s := StageAt(tr.states[i], rid, k);
            P.Register(tr.states[j].ledger, OriginOf(tr.states[j].runs[rid], rid, s, at),
                P.Entries(s.result.value.predictions))
            == Some(tr.states[j].ledger)
  {
    var s := StageAt(tr.states[i], rid, k);
    ScannedIsRegistered(tr, i, rid, k);
    ForwardAlways(tr, i, j);
    ForwardAlways(tr, i + 1, j);
    ScannedStays(tr.states[i].runs[rid], tr.states[j].runs[rid], k);
    RegisteredStays(tr.states[i + 1].ledger, tr.states[j].ledger, rid, s);
    P.KnownEntriesAddNothing(tr.states[j].ledger, OriginOf(tr.states[j].runs[rid], rid, s, at),
        P.Entries(s.result.value.predictions));
  }
}
