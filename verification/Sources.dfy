// Which steps can cause which visible changes: a run's status or gates, and a coverage's
// state.
module Sources {
  import opened Domain
  import opened Protocol
  import opened Invariants
  import opened Effects
  import opened Lifecycle
  import opened Advancing
  import C = CoverageMachine

  predicate SameStanding(r: Run, t: Run) {
    t.status == r.status && |t.gates| == |r.gates|
  }

  // ---- an advance pass, by outcome

  lemma AdvanceOutcome(db: Db, rid: RunId, pass: Pass, after: Db)
    requires Inv(db) && FundOk(pass.fund) && rid < |db.runs| && db.runs[rid].status.Running?
    requires Advance(db, rid, pass) == Some(after)
    ensures ScanOf(db, rid, pass).Some?
    ensures var mid := AfterScan(db, rid, ScanOf(db, rid, pass).value);
            Inv(mid) && mid.runs[rid].status.Running? && mid.coverages == db.coverages
                && Conclude(mid, rid) == Some(after)
  {
    var scan := ScanOf(db, rid, pass).value;
    ScanKeeps(db, rid, pass);
    AfterScanKeeps(db, rid, scan);
  }

  function EndedDb(db: Db, rid: RunId, status: RunStatus): Db
    requires rid < |db.runs|
  {
    db.(runs := db.runs[rid := Ended(db.runs[rid], status)],
        locks := ReleaseLocks(db.locks, rid),
        outbox := db.outbox + [EndEvent(db, rid)])
  }

  // The whole new state, by what the run's stages, budget and coverage say.
  function Verdict(db: Db, rid: RunId): Option<Db>
    requires rid < |db.runs| && db.runs[rid].coverage < |db.coverages|
  {
    var r := db.runs[rid];
    var initiating := r.kind.Initiation? && db.coverages[r.coverage].state.Initiating?;
    if AnyFailed(r) then Some(if initiating then FailedTogether(db, rid) else EndedDb(db, rid, RunStatus.Failed))
    else if BackoffPending(r, db.now) then Some(SetRun(db, rid, r.(status := RunStatus.Queued)))
    else if OverBudget(r) then Some(SetRun(db, rid, r.(status := WaitingPm, gates := r.gates + [BUDGET_GATE])))
    else if !AllTerminal(r) then Some(db)
    else if !r.kind.Initiation? then Some(EndedDb(db, rid, RunStatus.Succeeded))
    else if Deliverable(db.coverages[r.coverage]) then Some(Delivered(db, rid))
    else None
  }

  lemma ConcludeExact(db: Db, rid: RunId)
    requires rid < |db.runs| && db.runs[rid].coverage < |db.coverages| && db.runs[rid].status.Running?
    ensures Conclude(db, rid) == Verdict(db, rid)
  {
    StatusMeaning(db, rid);
    FailRunMeaning(db, rid);
    FinishMeaning(db, rid, RunStatus.Failed);
    FinishMeaning(db, rid, RunStatus.Succeeded);
    if db.runs[rid].kind.Initiation? {
      FinalizeMeaning(db, rid);
    }
  }

  // What ending a pass leaves alone.
  lemma ConcludeFrame(db: Db, rid: RunId, after: Db)
    requires rid < |db.runs| && db.runs[rid].coverage < |db.coverages| && Verdict(db, rid) == Some(after)
    ensures |db.runs| == |after.runs| && (forall q | 0 <= q < |db.runs| && q != rid :: after.runs[q] == db.runs[q])
    ensures var r := db.runs[rid]; var t := after.runs[rid];
            t.stages == r.stages && t.kind == r.kind && t.coverage == r.coverage
    ensures after.ledger == db.ledger && |after.coverages| == |db.coverages|
    ensures forall c | 0 <= c < |db.coverages| && c != db.runs[rid].coverage :: after.coverages[c] == db.coverages[c]
    ensures after.coverages != db.coverages ==> db.coverages[db.runs[rid].coverage].state.Initiating?
  {
  }

  // The five ways a pass can end.
  lemma ConcludeVerdict(db: Db, rid: RunId, after: Db)
    requires rid < |db.runs| && db.runs[rid].coverage < |db.coverages| && Verdict(db, rid) == Some(after)
    requires RunOk(db.runs[rid]) && db.runs[rid].status.Running? && rid < |after.runs|
    ensures var r := db.runs[rid]; var t := after.runs[rid];
            && (AnyFailed(r) <==> t.status.Failed?)
            && (t.status.Failed? && r.kind.Initiation? && db.coverages[r.coverage].state.Initiating? ==>
                  after == FailedTogether(db, rid))
            && (AtDecisionGate(t) ==> after == Delivered(db, rid) && db.coverages[r.coverage].state.Initiating?)
            && (t.status.Succeeded? ==> AllSatisfied(r) && !OverBudget(r) && !r.kind.Initiation?)
  {
    var r := db.runs[rid];
    assert r.gates == [];
    if AllTerminal(r) && !AnyFailed(r) {
      AllTerminalSatisfied(r);
    }
  }

  // Both together.
  lemma ConcludeOutcome(db: Db, rid: RunId, after: Db)
    requires Inv(db) && rid < |db.runs| && db.runs[rid].status.Running? && Conclude(db, rid) == Some(after)
    ensures rid < |after.runs|
    ensures var r := db.runs[rid]; var t := after.runs[rid];
            && |db.runs| == |after.runs| && (forall q | 0 <= q < |db.runs| && q != rid :: after.runs[q] == db.runs[q])
            && t.stages == r.stages && t.kind == r.kind && t.coverage == r.coverage
            && after.ledger == db.ledger && |after.coverages| == |db.coverages|
            && (forall c | 0 <= c < |db.coverages| && c != r.coverage :: after.coverages[c] == db.coverages[c])
            && (AnyFailed(r) <==> t.status.Failed?)
            && (t.status.Failed? && r.kind.Initiation? && db.coverages[r.coverage].state.Initiating? ==>
                  after == FailedTogether(db, rid))
            && (AtDecisionGate(t) ==> after == Delivered(db, rid) && db.coverages[r.coverage].state.Initiating?)
            && (t.status.Succeeded? ==> AllSatisfied(r) && !OverBudget(r) && !r.kind.Initiation?)
            && (after.coverages != db.coverages ==> db.coverages[r.coverage].state.Initiating?)
  {
    ConcludeExact(db, rid);
    ConcludeFrame(db, rid, after);
    ConcludeVerdict(db, rid, after);
  }

  // ---- every other step

  // Only the stages and the cost of one run are different.
  ghost predicate StagesOnly(db: Db, after: Db) {
    && after == db.(runs := after.runs) && |after.runs| == |db.runs|
    && forall q | 0 <= q < |db.runs| :: SameStanding(db.runs[q], after.runs[q])
  }

  lemma ClaimStagesOnly(db: Db, step: Step, after: Db)
    requires Next(db, step, after) && step.Claiming?
    ensures StagesOnly(db, after)
  {
  }

  lemma BeatStagesOnly(db: Db, step: Step, after: Db)
    requires Next(db, step, after) && step.Beating?
    ensures StagesOnly(db, after)
  {
  }

  lemma CompleteStagesOnly(db: Db, step: Step, after: Db)
    requires Next(db, step, after) && step.Completing?
    ensures StagesOnly(db, after)
  {
  }

  lemma FailStagesOnly(db: Db, step: Step, after: Db)
    requires Next(db, step, after) && step.Failing?
    ensures StagesOnly(db, after)
  {
  }

  lemma ReapStagesOnly(db: Db, step: Step, after: Db)
    requires Next(db, step, after) && step.Reaping?
    ensures StagesOnly(db, after)
  {
  }

  predicate QueueStep(step: Step) {
    step.Claiming? || step.Beating? || step.Completing? || step.Failing? || step.Reaping?
  }

  lemma QueueStandings(db: Db, step: Step, after: Db)
    requires Next(db, step, after) && QueueStep(step)
    ensures StagesOnly(db, after)
  {
    if step.Claiming? {
      ClaimStagesOnly(db, step, after);
    } else if step.Beating? {
      BeatStagesOnly(db, step, after);
    } else if step.Completing? {
      CompleteStagesOnly(db, step, after);
    } else if step.Failing? {
      FailStagesOnly(db, step, after);
    } else {
      ReapStagesOnly(db, step, after);
    }
  }

  lemma StartStandings(db: Db, rid: RunId, q: RunId)
    requires rid < |db.runs| && db.runs[rid].status.Queued?
    ensures var after := StartRun(db, rid).db;
            && after == db.(runs := after.runs, locks := after.locks) && |after.runs| == |db.runs|
            && (q < |db.runs| ==>
                  || after.runs[q] == db.runs[q]
                  || (q == rid && after.runs[q] == db.runs[q].(status := RunStatus.Running)))
            && after.runs[rid].leadHouse == db.runs[rid].leadHouse
  {
  }

  lemma PromoteStandings(db: Db, rid: RunId, houses: set<House>, after: Started, q: RunId)
    requires Inv(db) && Promote(db, rid, houses) == Some(after)
    ensures |after.db.runs| == |db.runs| && |after.db.coverages| == |db.coverages| && after.db.ledger == db.ledger
    ensures q < |db.runs| ==>
              || after.db.runs[q] == db.runs[q]
              || (q == rid && db.runs[q].status.Queued? && after.db.runs[q] == db.runs[q].(status := RunStatus.Running))
    ensures forall c | 0 <= c < |db.coverages| && after.db.coverages[c] != db.coverages[c] ::
              db.coverages[c].state.Proposed? && c == db.runs[rid].coverage
  {
    if db.runs[rid].status.Queued? {
      var started := StartRun(db, rid);
      StartStandings(db, rid, q);
      if started != after {
        StartMeaning(started.db, db.runs[rid].coverage, rid);
      }
    }
  }

  lemma ProposeStandings(db: Db, after: Db)
    requires Next(db, Proposing, after)
    ensures after.runs == db.runs && after.ledger == db.ledger
    ensures |after.coverages| >= |db.coverages|
        && forall c | 0 <= c < |db.coverages| :: after.coverages[c] == db.coverages[c]
  {
    ProposeMeaning(db);
  }

  lemma MoveStandings(db: Db, step: Step, after: Db)
    requires Next(db, step, after) && (step.Steering? || step.Leading?)
    ensures after.runs == db.runs && after.ledger == db.ledger && |after.coverages| == |db.coverages|
    ensures forall c | 0 <= c < |db.coverages| && after.coverages[c] != db.coverages[c] ::
              !db.coverages[c].state.DecisionPending? && !db.coverages[c].state.Initiating?
                  && !db.coverages[c].state.Failed?
  {
    match step
    case Steering(c, a, force, note, hasPosition) => SteerMeaning(db, c, a, force, note, hasPosition);
    case Leading(c, house, flags) => LeadMeaning(db, c, house, flags);
  }

  lemma SteerStandings(db: Db, step: Step, after: Db, q: RunId)
    requires Inv(db) && Next(db, step, after)
    requires step.Proposing? || step.Steering? || step.Leading?
    ensures after.runs == db.runs && after.ledger == db.ledger && |after.coverages| >= |db.coverages|
    ensures forall c | 0 <= c < |db.coverages| && after.coverages[c] != db.coverages[c] ::
              !db.coverages[c].state.DecisionPending? && !db.coverages[c].state.Initiating?
                  && !db.coverages[c].state.Failed?
  {
    if step.Proposing? {
      ProposeStandings(db, after);
    } else {
      MoveStandings(db, step, after);
    }
  }

  lemma CreateStandings(db: Db, step: Step, after: Db)
    requires Next(db, step, after) && step.Creating?
    ensures after == db.(runs := after.runs) && |after.runs| == |db.runs| + 1 && after.runs[..|db.runs|] == db.runs
  {
  }

  lemma AnswerStandings(db: Db, step: Step, after: Db)
    requires Next(db, step, after) && step.Answering?
    ensures StagesOnly(db, after)
  {
  }

  lemma IdleStandings(db: Db, step: Step, after: Db)
    requires Next(db, step, after) && (step.Editing? || step.Waiting?)
    ensures after == db.(ledger := after.ledger, now := after.now)
  {
  }

  lemma PlainStandings(db: Db, step: Step, after: Db, q: RunId)
    requires Next(db, step, after)
    requires step.Creating? || step.Answering? || step.Editing? || step.Waiting?
    ensures |after.runs| >= |db.runs| && (q < |db.runs| ==> SameStanding(db.runs[q], after.runs[q]))
    ensures after.coverages == db.coverages && (step.Editing? || after.ledger == db.ledger)
  {
    if step.Creating? {
      CreateStandings(db, step, after);
      assert q < |db.runs| ==> after.runs[..|db.runs|][q] == db.runs[q];
    } else if step.Answering? {
      AnswerStandings(db, step, after);
    } else {
      IdleStandings(db, step, after);
    }
  }

  lemma DecideStandings(db: Db, step: Step, after: Db, q: RunId)
    requires Inv(db) && Next(db, step, after) && step.Deciding?
    ensures step.c < |db.coverages| && db.coverages[step.c].state.DecisionPending?
    ensures C.IsDecide(step.action) && step.gateRun.Some? && step.gateRun.value < |db.runs|
    ensures Undecided(db.runs[step.gateRun.value], step.c)
    ensures after == Decided(db, step.c, step.action, step.gateRun.value)
    ensures q < |db.runs| && q != step.gateRun.value ==> after.runs[q] == db.runs[q]
  {
    DecideExact(db, step.c, step.action, step.gateRun);
  }

  lemma CancelStandings(db: Db, step: Step, after: Db, q: RunId)
    requires Inv(db) && Next(db, step, after) && step.Cancelling?
    ensures after.coverages == db.coverages && |after.runs| == |db.runs| && after.ledger == db.ledger
    ensures q < |db.runs| && q != step.rid ==> after.runs[q] == db.runs[q]
    ensures step.rid < |db.runs|
    ensures q == step.rid ==> after.runs[q] == Ended(db.runs[q], Cancelled) && !RunTerminal(db.runs[q].status)
  {
    FinishMeaning(db, step.rid, Cancelled);
  }

  lemma AdvanceStandings(db: Db, step: Step, after: Db, q: RunId)
    requires Inv(db) && Next(db, step, after) && step.Advancing?
    ensures |after.runs| == |db.runs| && |after.coverages| == |db.coverages|
    ensures step.rid < |db.runs|
    ensures q < |db.runs| && (q != step.rid || !db.runs[q].status.Running?) ==> after.runs[q] == db.runs[q]
    ensures forall c | 0 <= c < |db.coverages|
        && after.coverages[c] != db.coverages[c] :: db.coverages[c].state.Initiating?
  {
    if db.runs[step.rid].status.Running? {
      AdvanceOutcome(db, step.rid, step.pass, after);
      ConcludeOutcome(AfterScan(db, step.rid, ScanOf(db, step.rid, step.pass).value), step.rid, after);
    }
  }

  // A run's status or gates change only when it is promoted, advanced, decided or
  // cancelled itself.
  lemma StandingSource(db: Db, step: Step, after: Db, q: RunId)
    requires Inv(db) && Next(db, step, after) && q < |db.runs|
    ensures q < |after.runs|
    ensures || SameStanding(db.runs[q], after.runs[q])
            || (step.Promoting? && step.rid == q && db.runs[q].status.Queued? && after.runs[q].status.Running?
                && after.runs[q].gates == db.runs[q].gates)
            || (step.Advancing? && step.rid == q && db.runs[q].status.Running?)
            || (step.Deciding? && step.gateRun == Some(q) && Undecided(db.runs[q], step.c))
            || (step == Cancelling(q) && after.runs[q].status.Cancelled?)
  {
    if QueueStep(step) {
      QueueStandings(db, step, after);
    } else if step.Promoting? {
      PromoteStandings(db, step.rid, step.houses, Promote(db, step.rid, step.houses).value, q);
    } else if step.Advancing? {
      AdvanceStandings(db, step, after, q);
    } else if step.Deciding? {
      DecideStandings(db, step, after, q);
    } else if step.Cancelling? {
      CancelStandings(db, step, after, q);
    } else if step.Proposing? || step.Steering? || step.Leading? {
      SteerStandings(db, step, after, q);
    } else {
      PlainStandings(db, step, after, q);
    }
  }

  // A pending coverage moves only by a decision, and an initiating one only by an
  // advance pass over a run on it.
  lemma StateSource(db: Db, step: Step, after: Db, c: CoverageId)
    requires Inv(db) && Next(db, step, after) && c < |db.coverages|
    ensures c < |after.coverages|
    ensures db.coverages[c].state.DecisionPending? && after.coverages[c] != db.coverages[c] ==>
        step.Deciding? && step.c == c
    ensures db.coverages[c].state.Initiating? && after.coverages[c] != db.coverages[c] ==> step.Advancing?
  {
    if QueueStep(step) {
      QueueStandings(db, step, after);
    } else if step.Promoting? {
      PromoteStandings(db, step.rid, step.houses, Promote(db, step.rid, step.houses).value, 0);
    } else if step.Advancing? {
      AdvanceStandings(db, step, after, 0);
    } else if step.Deciding? {
      DecideStandings(db, step, after, 0);
    } else if step.Cancelling? {
      CancelStandings(db, step, after, 0);
    } else if step.Proposing? || step.Steering? || step.Leading? {
      SteerStandings(db, step, after, 0);
    } else {
      PlainStandings(db, step, after, 0);
    }
  }

  // A failed coverage never moves.
  lemma FailedSource(db: Db, step: Step, after: Db, c: CoverageId)
    requires Inv(db) && Next(db, step, after) && c < |db.coverages| && db.coverages[c].state.Failed?
    ensures c < |after.coverages| && after.coverages[c] == db.coverages[c]
  {
    if QueueStep(step) {
      QueueStandings(db, step, after);
    } else if step.Promoting? {
      PromoteStandings(db, step.rid, step.houses, Promote(db, step.rid, step.houses).value, 0);
    } else if step.Advancing? {
      AdvanceStandings(db, step, after, 0);
    } else if step.Deciding? {
      DecideStandings(db, step, after, 0);
    } else if step.Cancelling? {
      CancelStandings(db, step, after, 0);
    } else if step.Proposing? || step.Steering? || step.Leading? {
      SteerStandings(db, step, after, 0);
    } else {
      PlainStandings(db, step, after, 0);
    }
  }

  // A pass moves an initiating coverage that has no lead only to failed.
  lemma UnledVerdict(db: Db, rid: RunId, after: Db, c: CoverageId)
    requires rid < |db.runs| && db.runs[rid].coverage < |db.coverages| && Verdict(db, rid) == Some(after)
    requires c < |db.coverages| && db.coverages[c].state.Initiating? && db.coverages[c].lead.None?
    ensures c < |after.coverages|
    ensures after.coverages[c] == db.coverages[c] || after.coverages[c].state.Failed?
  {
  }

  lemma UnledPass(db: Db, step: Step, after: Db, c: CoverageId)
    requires Inv(db) && Next(db, step, after) && step.Advancing?
    requires c < |db.coverages| && db.coverages[c].state.Initiating? && db.coverages[c].lead.None?
    ensures c < |after.coverages|
    ensures after.coverages[c] == db.coverages[c] || after.coverages[c].state.Failed?
  {
    if db.runs[step.rid].status.Running? {
      var mid := AfterScan(db, step.rid, ScanOf(db, step.rid, step.pass).value);
      AdvanceOutcome(db, step.rid, step.pass, after);
      ConcludeExact(mid, step.rid);
      UnledVerdict(mid, step.rid, after, c);
    }
  }

  // ---- where initiating coverages come from

  // This promotion has just started the coverage's initiation.
  ghost predicate StartsCoverage(db: Db, step: Step, after: Db, c: CoverageId) {
    && step.Promoting? && step.rid < |db.runs| && step.rid < |after.runs| && c < |after.coverages|
    && var r := db.runs[step.rid]; var cov := after.coverages[c];
       && r.kind.Initiation? && r.status.Queued? && r.coverage == c
       && after.runs[step.rid] == r.(status := RunStatus.Running)
       && cov.lead == r.leadHouse && KnownLead(cov.lead, step.houses)
       && |cov.log| > 0 && cov.log[|cov.log| - 1].run == Some(step.rid)
  }

  lemma StartSource(db: Db, step: Step, after: Db, c: CoverageId)
    requires Inv(db) && Next(db, step, after) && step.Promoting? && c < |after.coverages|
    ensures (c < |db.coverages| && after.coverages[c] == db.coverages[c]) || StartsCoverage(db, step, after, c)
  {
    PromoteSource(db, step.rid, step.houses, Promote(db, step.rid, step.houses).value, c);
  }

  lemma PromoteSource(db: Db, rid: RunId, houses: set<House>, after: Started, c: CoverageId)
    requires rid < |db.runs| && db.runs[rid].coverage < |db.coverages|
    requires Promote(db, rid, houses) == Some(after) && c < |after.db.coverages|
    ensures (c < |db.coverages| && after.db.coverages[c] == db.coverages[c])
            || StartsCoverage(db, Promoting(rid, houses), after.db, c)
  {
    if db.runs[rid].status.Queued? {
      var mid := StartRun(db, rid).db;
      StartStandings(db, rid, rid);
      if StartRun(db, rid) != after {
        StartedSource(mid, rid, after.db, c);
      }
    }
  }

  lemma StartedSource(db: Db, rid: RunId, after: Db, c: CoverageId)
    requires rid < |db.runs| && db.runs[rid].coverage < |db.coverages| && c < |after.coverages|
    requires db.coverages[db.runs[rid].coverage].state.Proposed?
    requires ByRun(db, db.runs[rid].coverage, C.StartInitiation, rid) == Some(after)
    ensures after.runs == db.runs && c < |db.coverages|
    ensures after.coverages[c] == db.coverages[c] ||
            (c == db.runs[rid].coverage && after.coverages[c].lead == db.runs[rid].leadHouse
             && |after.coverages[c].log| > 0 && after.coverages[c].log[|after.coverages[c].log| - 1].run == Some(rid))
  {
    StartMeaning(db, db.runs[rid].coverage, rid);
  }

  lemma MoveSource(db: Db, step: Step, after: Db, c: CoverageId)
    requires Next(db, step, after) && (step.Steering? || step.Leading?) && c < |after.coverages|
    requires after.coverages[c].state.Initiating?
    ensures c < |db.coverages| && after.coverages[c] == db.coverages[c]
  {
    match step
    case Steering(d, a, force, note, hasPosition) => SteerMeaning(db, d, a, force, note, hasPosition);
    case Leading(d, house, flags) => LeadMeaning(db, d, house, flags);
  }

  lemma DecideSource(db: Db, step: Step, after: Db, c: CoverageId)
    requires Inv(db) && Next(db, step, after) && step.Deciding? && c < |after.coverages|
    requires after.coverages[c].state.Initiating?
    ensures c < |db.coverages| && after.coverages[c] == db.coverages[c]
  {
    DecideStandings(db, step, after, 0);
    DecidedSource(db, step.c, step.action, step.gateRun.value, c);
  }

  lemma DecidedSource(db: Db, d: CoverageId, a: C.Action, g: RunId, c: CoverageId)
    requires d < |db.coverages| && g < |db.runs| && |db.runs[g].gates| == 1 && C.IsDecide(a)
    ensures |Decided(db, d, a, g).coverages| == |db.coverages|
    ensures c < |db.coverages| && Decided(db, d, a, g).coverages[c].state.Initiating? ==>
              Decided(db, d, a, g).coverages[c] == db.coverages[c]
  {
  }

  lemma VerdictSource(db: Db, rid: RunId, after: Db, c: CoverageId)
    requires rid < |db.runs| && db.runs[rid].coverage < |db.coverages| && Verdict(db, rid) == Some(after)
    requires c < |after.coverages| && after.coverages[c].state.Initiating?
    ensures c < |db.coverages| && after.coverages[c] == db.coverages[c]
  {
  }

  lemma PassSource(db: Db, step: Step, after: Db, c: CoverageId)
    requires Inv(db) && Next(db, step, after) && step.Advancing? && c < |after.coverages|
    requires after.coverages[c].state.Initiating?
    ensures c < |db.coverages| && after.coverages[c] == db.coverages[c]
  {
    if db.runs[step.rid].status.Running? {
      var mid := AfterScan(db, step.rid, ScanOf(db, step.rid, step.pass).value);
      AdvanceOutcome(db, step.rid, step.pass, after);
      ConcludeExact(mid, step.rid);
      VerdictSource(mid, step.rid, after, c);
    }
  }

  // A coverage is initiating after a step only if it was before, untouched, or if the step
  // promoted the run that starts it, whose lead it then has.
  lemma InitiatingSource(db: Db, step: Step, after: Db, c: CoverageId)
    requires Inv(db) && Next(db, step, after) && c < |after.coverages| && after.coverages[c].state.Initiating?
    ensures (c < |db.coverages| && after.coverages[c] == db.coverages[c]) || StartsCoverage(db, step, after, c)
  {
    if QueueStep(step) {
      QueueStandings(db, step, after);
    } else if step.Promoting? {
      StartSource(db, step, after, c);
    } else if step.Advancing? {
      PassSource(db, step, after, c);
    } else if step.Deciding? {
      DecideSource(db, step, after, c);
    } else if step.Cancelling? {
      CancelStandings(db, step, after, 0);
    } else if step.Proposing? {
      ProposeMeaning(db);
    } else if step.Steering? || step.Leading? {
      MoveSource(db, step, after, c);
    } else {
      PlainStandings(db, step, after, 0);
    }
  }
}
