// When a pending coverage can still be decided (core/api/routes.py): the decide route is
// the only way out, and it needs the open decision gate of a run that still waits at it.
// Cancelling that run, or answering its gate through the gate route, closes the way out
// for good.
module Stranding {
  import opened Domain
  import opened Protocol
  import opened Invariants
  import opened Lifecycle
  import opened Advancing
  import opened Sources
  import opened Traces
  import CrossChecks
  import C = CoverageMachine

  ghost predicate Pending(db: Db, c: CoverageId) {
    c < |db.coverages| && db.coverages[c].state.DecisionPending?
  }

  ghost predicate Decidable(db: Db, c: CoverageId) {
    exists g: RunId :: g < |db.runs| && Undecided(db.runs[g], c)
  }

  // ---- one step

  lemma NoNewGate(db: Db, step: Step, after: Db, c: CoverageId, g: RunId)
    requires Inv(db) && Next(db, step, after) && Pending(db, c)
    requires g < |after.runs| && Undecided(after.runs[g], c)
    ensures g < |db.runs| && Undecided(db.runs[g], c)
  {
    NextKeeps(db, step, after);
    if g >= |db.runs| {
      NewRunIsQueued(db, step, after, g);
    } else {
      StandingSource(db, step, after, g);
      assert RunEvolves(db.runs[g], after.runs[g]);
      if SameStanding(db.runs[g], after.runs[g]) {
      } else if step.Advancing? {
        AdvanceOutcome(db, g, step.pass, after);
        ConcludeOutcome(AfterScan(db, g, ScanOf(db, g, step.pass).value), g, after);
      } else if step.Deciding? {
        DecideStandings(db, step, after, g);
      }
    }
  }

  lemma NewRunIsQueued(db: Db, step: Step, after: Db, g: RunId)
    requires Inv(db) && Next(db, step, after) && |db.runs| <= g < |after.runs|
    ensures after.runs[g].status.Queued?
  {
    CrossChecks.NewRunStep(db, step, after);
  }

  // With no decision gate left, every step leaves the coverage pending and gateless.
  lemma StaysStranded(db: Db, step: Step, after: Db, c: CoverageId)
    requires Inv(db) && Next(db, step, after) && Pending(db, c) && !Decidable(db, c)
    ensures Pending(after, c) && !Decidable(after, c)
  {
    NextKeeps(db, step, after);
    StateSource(db, step, after, c);
    if after.coverages[c] != db.coverages[c] {
      DecideStandings(db, step, after, 0);
    }
    if Decidable(after, c) {
      var g: RunId :| g < |after.runs| && Undecided(after.runs[g], c);
      NoNewGate(db, step, after, c, g);
    }
  }

  // ---- every continuation

  ghost predicate Stranded(db: Db, c: CoverageId) {
    Pending(db, c) && !Decidable(db, c)
  }

  lemma StrandedNext(db: Db, step: Step, after: Db, c: CoverageId)
    requires Inv(db) && Stranded(db, c) && Next(db, step, after)
    ensures Inv(after) && Stranded(after, c)
  {
    NextKeeps(db, step, after);
    StaysStranded(db, step, after, c);
  }

  lemma StrandedAlways(p: Trace, db: Db, c: CoverageId, i: nat)
    requires Inv(db) && Path(p, db) && Stranded(db, c) && i < |p.states|
    ensures Stranded(p.states[i], c)
  {
    var j := 0;
    while j < i
      invariant j <= i && Inv(p.states[j]) && Stranded(p.states[j], c)
    {
      assert StepAt(p, j);
      StrandedNext(p.states[j], p.steps[j], p.states[j + 1], c);
      j := j + 1;
    }
  }

  // Somewhere along the path the coverage is no longer pending.
  ghost predicate Escapes(p: Trace, db: Db, c: CoverageId, i: nat) {
    Path(p, db) && i < |p.states| && c < |p.states[i].coverages| && !p.states[i].coverages[c].state.DecisionPending?
  }

  ghost predicate CanEscape(db: Db, c: CoverageId) {
    exists p: Trace, i: nat :: Escapes(p, db, c, i)
  }

  lemma GateIsOpen(db: Db, c: CoverageId, g: RunId)
    requires g < |db.runs| && Undecided(db.runs[g], c)
    ensures OpenGateRun(db, c, g)
  {
    assert FirstOpen(db.runs[g].gates) == Some(0);
  }

  lemma DecidedMoves(db: Db, c: CoverageId, a: C.Action, g: RunId)
    requires c < |db.coverages| && g < |db.runs| && |db.runs[g].gates| == 1 && C.IsDecide(a)
    ensures |Decided(db, c, a, g).coverages| == |db.coverages|
    ensures !Decided(db, c, a, g).coverages[c].state.DecisionPending?
  {
  }

  // Taking the decision is a path of one step.
  lemma DecisionPath(db: Db, c: CoverageId, a: C.Action, g: RunId, after: Db)
    requires OpenGateRun(db, c, g) && Decide(db, c, a, Some(g)) == Some(after)
    requires c < |after.coverages| && !after.coverages[c].state.DecisionPending?
    ensures CanEscape(db, c)
  {
    var p := Trace([db, after], [Deciding(c, a, Some(g))]);
    assert StepAt(p, 0);
    assert Escapes(p, db, c, 1);
  }

  lemma DecisionEscapes(db: Db, c: CoverageId, g: RunId, a: C.Action)
    requires Inv(db) && Pending(db, c) && g < |db.runs| && Undecided(db.runs[g], c) && C.IsDecide(a)
    ensures CanEscape(db, c)
  {
    GateIsOpen(db, c, g);
    DecideExact(db, c, a, Some(g));
    DecidedMoves(db, c, a, g);
    DecisionPath(db, c, a, g, Decided(db, c, a, g));
  }

  // A pending coverage can ever leave that state if and only if some initiation still
  // waits at its open decision gate.
  lemma EscapeIffDecidable(db: Db, c: CoverageId)
    requires Inv(db) && Pending(db, c)
    ensures CanEscape(db, c) <==> Decidable(db, c)
  {
    if Decidable(db, c) {
      var g: RunId :| g < |db.runs| && Undecided(db.runs[g], c);
      DecisionEscapes(db, c, g, C.DecideReject);
    } else {
      forall p: Trace, i: nat | Escapes(p, db, c, i) ensures false {
        StrandedAlways(p, db, c, i);
      }
    }
  }

  // ---- how a coverage becomes stranded

  // At most one run can be waiting at a coverage's decision gate.
  lemma OneUndecided(db: Db, c: CoverageId, g: RunId, h: RunId)
    requires Inv(db) && g < |db.runs| && h < |db.runs| && Undecided(db.runs[g], c) && Undecided(db.runs[h], c)
    ensures g == h
  {
    assert RunOk(db.runs[g]) && RunOk(db.runs[h]);
    assert GateOk(db.runs[g], db.runs[g].gates[0]) && GateOk(db.runs[h], db.runs[h].gates[0]);
    assert HoldsTicker(db.runs[g]) && HoldsTicker(db.runs[h]);
  }

  lemma ClosingStrands(db: Db, step: Step, after: Db, c: CoverageId, g: RunId)
    requires Inv(db) && Next(db, step, after) && Pending(db, c)
    requires g < |db.runs| && Undecided(db.runs[g], c)
    requires g < |after.runs| && !Undecided(after.runs[g], c)
    ensures !Decidable(after, c)
  {
    if Decidable(after, c) {
      var h: RunId :| h < |after.runs| && Undecided(after.runs[h], c);
      NoNewGate(db, step, after, c, h);
      OneUndecided(db, c, g, h);
    }
  }

  // Cancelling the run at the decision gate leaves its coverage pending for ever.
  lemma CancellingStrands(db: Db, g: RunId, after: Db, c: CoverageId, p: Trace, i: nat)
    requires Inv(db) && Pending(db, c) && g < |db.runs| && Undecided(db.runs[g], c)
    requires Next(db, Cancelling(g), after) && Path(p, after) && i < |p.states|
    ensures Pending(p.states[i], c)
  {
    NextKeeps(db, Cancelling(g), after);
    CancelStandings(db, Cancelling(g), after, g);
    ClosingStrands(db, Cancelling(g), after, c, g);
    StrandedAlways(p, after, c, i);
  }

  // So does answering the gate directly, whatever the answer.
  lemma AnsweringStrands(db: Db, g: RunId, answer: string, key: string, after: Db, c: CoverageId, p: Trace, i: nat)
    requires Inv(db) && Pending(db, c) && g < |db.runs| && Undecided(db.runs[g], c)
    requires Next(db, Answering(g, 0, answer, key), after) && Path(p, after) && i < |p.states|
    ensures Pending(p.states[i], c)
  {
    AnsweringCloses(db, g, answer, key, after, c);
    StrandedAlways(p, after, c, i);
  }

  lemma AnswerEndsWaiting(db: Db, g: RunId, answer: string, key: string, after: Db, c: CoverageId)
    requires g < |db.runs| && Undecided(db.runs[g], c) && AnswerGate(db, g, 0, answer, key) == Some(after)
    ensures g < |after.runs| && !Undecided(after.runs[g], c) && after.coverages == db.coverages
  {
  }

  lemma AnsweringCloses(db: Db, g: RunId, answer: string, key: string, after: Db, c: CoverageId)
    requires Inv(db) && Pending(db, c) && g < |db.runs| && Undecided(db.runs[g], c)
    requires Next(db, Answering(g, 0, answer, key), after)
    ensures Inv(after) && Stranded(after, c)
  {
    NextKeeps(db, Answering(g, 0, answer, key), after);
    AnswerEndsWaiting(db, g, answer, key, after, c);
    ClosingStrands(db, Answering(g, 0, answer, key), after, c, g);
  }

  // And nothing else does: a step that takes the way out away while the coverage stays
  // pending is one of these two.
  lemma StrandingSource(db: Db, step: Step, after: Db, c: CoverageId)
    requires Inv(db) && Next(db, step, after) && Pending(db, c) && Pending(after, c)
    requires Decidable(db, c) && !Decidable(after, c)
    ensures exists g: RunId :: g < |db.runs| && Undecided(db.runs[g], c)
                               && (step == Cancelling(g) || (step.Answering? && step.rid == g))
  {
    var g: RunId :| g < |db.runs| && Undecided(db.runs[g], c);
    NextKeeps(db, step, after);
    assert !Undecided(after.runs[g], c);
    ClosingSource(db, step, after, c, g);
  }

  lemma ClosingSource(db: Db, step: Step, after: Db, c: CoverageId, g: RunId)
    requires Inv(db) && Next(db, step, after) && Pending(db, c) && Pending(after, c)
    requires g < |db.runs| && Undecided(db.runs[g], c) && g < |after.runs| && !Undecided(after.runs[g], c)
    requires RunEvolves(db.runs[g], after.runs[g])
    ensures step == Cancelling(g) || (step.Answering? && step.rid == g)
  {
    StandingSource(db, step, after, g);
    if step.Deciding? {
      DecideStandings(db, step, after, g);
      DecidedMoves(db, step.c, step.action, step.gateRun.value);
    } else if SameStanding(db.runs[g], after.runs[g]) {
      GatesMoveByAnswer(db, step, after, g);
    }
  }

  lemma GatesMoveByAnswer(db: Db, step: Step, after: Db, q: RunId)
    requires Inv(db) && Next(db, step, after) && q < |db.runs| && db.runs[q].status.WaitingPm? && !step.Deciding?
    requires q < |after.runs| && after.runs[q].status.WaitingPm? && after.runs[q].gates != db.runs[q].gates
    ensures step.Answering? && step.rid == q
  {
    if QueueStep(step) {
      QueueGates(db, step, after, q);
    } else if step.Promoting? {
      PromoteStandings(db, step.rid, step.houses, Promote(db, step.rid, step.houses).value, q);
    } else if step.Advancing? {
      AdvanceStandings(db, step, after, q);
    } else if step.Cancelling? {
      CancelStandings(db, step, after, q);
    } else if step.Proposing? || step.Steering? || step.Leading? {
      SteerStandings(db, step, after, q);
    } else if step.Creating? {
      CreateStandings(db, step, after);
    } else if !step.Answering? {
      IdleStandings(db, step, after);
    }
  }

  lemma QueueGates(db: Db, step: Step, after: Db, q: RunId)
    requires Next(db, step, after) && QueueStep(step) && q < |db.runs| && q < |after.runs|
    ensures after.runs[q].gates == db.runs[q].gates
  {
  }
}
