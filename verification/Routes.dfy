// The PM routes that change runs and coverages, one transaction each
// (core/api/routes.py, core/api/deps.py).
module Routes {
  import opened Domain
  import opened Protocol
  import opened Invariants
  import opened Effects
  import opened Lifecycle
  import opened Store
  import opened Stranding
  import C = CoverageMachine
  import RunStore
  import CoverageStore

  // Whatever the route does not expect to be raised is answered with a server error.
  datatype Reply = Done | NotFound | BadDecision | Conflict | ServerError

  function ActionOf(decision: string): Option<C.Action> {
    if decision == "active" then Some(C.DecideActive)
    else if decision == "watch" then Some(C.DecideWatch)
    else if decision == "reject" then Some(C.DecideReject)
    else None
  }

  // Some open gate of the coverage, of whatever kind.
  method FindOpenGate(s: Session, c: CoverageId) returns (rid: Option<RunId>)
    ensures rid.Some? ==> OpenGateRun(s.View(), c, rid.value)
    ensures rid.None? ==> forall r: RunId :: !OpenGateRun(s.View(), c, r)
  {
    for r := 0 to |s.runs|
      invariant forall q: RunId | q < r :: !OpenGateRun(s.View(), c, q)
    {
      if s.runs[r].coverage == c && FirstOpen(s.runs[r].gates).Some? {
        return Some(r);
      }
    }
    return None;
  }

  // Record the decision and finish the run whose gate was found, or change nothing.
  method Decide(s: Session, c: CoverageId, decision: string) returns (reply: Reply, ghost gateRun: Option<RunId>)
    modifies s
    ensures c < |old(s.coverages)| && ActionOf(decision).Some? ==> MayFind(old(s.View()), c, gateRun)
    ensures reply.NotFound? <==> c >= |old(s.coverages)|
    ensures reply.BadDecision? <==> c < |old(s.coverages)| && ActionOf(decision).None?
    ensures reply.Done? <==>
              && c < |old(s.coverages)| && ActionOf(decision).Some?
              && Protocol.Decide(old(s.View()), c, ActionOf(decision).value, gateRun).Some?
    ensures reply.Conflict? <==>
              && c < |old(s.coverages)| && ActionOf(decision).Some?
              && !CoverageStore.Legal(old(s.View()), c, ActionOf(decision).value, gateRun, false, false, false)
    ensures reply.Done? ==> Next(old(s.View()), Deciding(c, ActionOf(decision).value, gateRun), s.View())
    ensures !reply.Done? ==> s.View() == old(s.View())
  {
    gateRun := None;
    if c >= |s.coverages| {
      return NotFound, gateRun;
    }
    var action := ActionOf(decision);
    if action.None? {
      return BadDecision, gateRun;
    }
    var before := s.View();
    var found := FindOpenGate(s, c);
    gateRun := found;
    var moved := CoverageStore.Transition(s, c, action.value, found, false, false, false);
    if moved.Illegal? {
      return Conflict, gateRun;
    }
    if moved.Broken? {
      s.Rollback(before);
      return ServerError, gateRun;
    }
    if found.Some? {
      var finished := RunStore.FinishRun(s, found.value, RunStatus.Succeeded);
      if !finished {
        s.Rollback(before);
        return ServerError, gateRun;
      }
    }
    return Done, gateRun;
  }

  method CancelRun(s: Session, rid: RunId) returns (reply: Reply)
    modifies s
    ensures reply.Done? <==> rid < |old(s.runs)| && !RunTerminal(old(s.runs)[rid].status)
    ensures reply.Done? ==> Next(old(s.View()), Cancelling(rid), s.View())
    ensures !reply.Done? ==> reply.ServerError?
    ensures !reply.Done? ==> s.View() == old(s.View())
  {
    var ok := RunStore.FinishRun(s, rid, Cancelled);
    reply := if ok then Done else ServerError;
  }

  lemma SteerOutcome(db: Db, c: CoverageId, a: C.Action, force: bool, note: bool, hasPosition: bool)
    requires PmAction(a) && c < |db.coverages|
    ensures CoverageStore.Legal(db, c, a, None, force, note, hasPosition) <==>
              && C.Table(Some(db.coverages[c].state), a).Some?
              && !(a.Exit? && ((hasPosition && !force) || (force && !note)))
    ensures CoverageStore.Legal(db, c, a, None, force, note, hasPosition) && LeadConstraint(db.coverages[c]) ==>
              Transition(db, c, a, None, force, note, hasPosition).Some?
  {
    if CoverageStore.Legal(db, c, a, None, force, note, hasPosition) && LeadConstraint(db.coverages[c]) {
      SteerKeepsConstraint(db, c, a, force, note, hasPosition);
    }
  }

  // Promote, demote, exit and re-propose.
  method Steer(
    s: Session, c: CoverageId, a: C.Action, force: bool, note: bool, hasPosition: bool)
    returns (reply: Reply)
    requires PmAction(a)
    modifies s
    ensures reply.NotFound? <==> c >= |old(s.coverages)|
    ensures reply.Done? ==> Next(old(s.View()), Steering(c, a, force, note, hasPosition), s.View())
    ensures reply.Conflict? <==>
              && c < |old(s.coverages)|
              && (C.Table(Some(old(s.coverages)[c].state), a).None?
                  || (a.Exit? && ((hasPosition && !force) || (force && !note))))
    ensures reply.ServerError? ==> !LeadConstraint(old(s.coverages)[c])
    ensures !reply.Done? ==> s.View() == old(s.View())
  {
    if c >= |s.coverages| {
      return NotFound;
    }
    var before := s.View();
    SteerOutcome(before, c, a, force, note, hasPosition);
    var o := CoverageStore.Transition(s, c, a, None, force, note, hasPosition);
    if o.Broken? {
      s.Rollback(before);
    }
    reply := if o.Taken? then Done else if o.Illegal? then Conflict else ServerError;
  }

  // What the gate query may return for a coverage.
  ghost predicate MayFind(db: Db, c: CoverageId, gateRun: Option<RunId>) {
    if gateRun.Some? then OpenGateRun(db, c, gateRun.value) else forall rid: RunId :: !OpenGateRun(db, c, rid)
  }

  // Nothing but the decision gate is open on the coverage, and that is.
  ghost predicate OnlyDecisionOpen(db: Db, c: CoverageId) {
    && (exists g: RunId :: OpenGateRun(db, c, g))
    && (forall g: RunId | OpenGateRun(db, c, g) :: Undecided(db.runs[g], c))
  }

  lemma DecisionOf(db: Db, c: CoverageId, a: C.Action, gateRun: Option<RunId>)
    requires Inv(db) && C.IsDecide(a) && Pending(db, c) && MayFind(db, c, gateRun)
    ensures Protocol.Decide(db, c, a, gateRun).Some? <==> gateRun.Some? && Undecided(db.runs[gateRun.value], c)
  {
    DecideExact(db, c, a, gateRun);
  }

  // A decision is sure to go through exactly when the coverage is pending, something is
  // open on it, and nothing else is open on it: the gate query does not ask for the kind,
  // so another run's budget gate on the same coverage may be found instead.
  lemma DecisionIsSureIff(db: Db, c: CoverageId, a: C.Action)
    requires Inv(db) && C.IsDecide(a) && Pending(db, c)
    ensures (forall gateRun: Option<RunId> | MayFind(db, c, gateRun) :: Protocol.Decide(db, c, a, gateRun).Some?)
            <==> OnlyDecisionOpen(db, c)
  {
    if OnlyDecisionOpen(db, c) {
      forall gateRun: Option<RunId> | MayFind(db, c, gateRun) ensures Protocol.Decide(db, c, a, gateRun).Some? {
        DecisionOf(db, c, a, gateRun);
      }
    } else if forall g: RunId :: !OpenGateRun(db, c, g) {
      DecisionOf(db, c, a, None);
    } else {
      var g: RunId :| OpenGateRun(db, c, g) && !Undecided(db.runs[g], c);
      DecisionOf(db, c, a, Some(g));
    }
  }
}
