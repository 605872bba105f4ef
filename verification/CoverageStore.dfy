// The coverage repository on a session (core/db/repo/coverage.py).
module CoverageStore {
  import opened Domain
  import opened Protocol
  import opened Store
  import C = CoverageMachine

  // One side effect of a transition.
  method Carry(s: Session, c: CoverageId, a: C.Action, rid: Option<RunId>, e: C.Effect)
    requires c < |s.coverages|
    modifies s
    ensures s.View() == ApplyEffect(old(s.View()), c, a, rid, e)
  {
    var known := rid.Some? && rid.value < |s.runs|;
    match e
    case SetLeadHouse =>
      if known {
        s.coverages := s.coverages[c := s.coverages[c].(lead := s.runs[rid.value].leadHouse)];
      }
    case OpenDecisionGate =>
      if known {
        s.SetRun(rid.value, s.runs[rid.value].(gates := s.runs[rid.value].gates + [DECISION_GATE]));
      }
    case AnswerGate =>
      if known {
        var r := s.runs[rid.value];
        var g := FirstOpen(r.gates);
        if g.Some? {
          var gate := r.gates[g.value];
          gate := gate.(state := Answered);
          gate := gate.(answer := Some(DecisionAnswer(a)));
          s.SetRun(rid.value, r.(gates := r.gates[g.value := gate]));
        }
      }
    case CancelOpenGate =>
      if known {
        Withdraw(s, rid.value);
      }
    case Emit(kind) =>
      if !kind.StateChanged? {
        s.outbox := s.outbox + [Emission(kind, c, rid, None, None)];
      }
    case Ignored(_) =>
  }

  method Withdraw(s: Session, rid: RunId)
    requires rid < |s.runs|
    modifies s`runs
    ensures var r := old(s.runs)[rid];
            s.runs == old(s.runs)[rid := r.(gates := seq(|r.gates|, i requires 0 <= i < |r.gates| =>
              if r.gates[i].state.Open? then r.gates[i].(state := Withdrawn) else r.gates[i]))]
  {
    var r := s.runs[rid];
    var gates := r.gates;
    for i := 0 to |gates|
      invariant |gates| == |r.gates|
      invariant forall j | 0 <= j < i :: gates[j] == if r.gates[j].state.Open? then r.gates[j].(state := Withdrawn)
          else r.gates[j]
      invariant forall j | i <= j < |gates| :: gates[j] == r.gates[j]
    {
      if gates[i].state.Open? {
        gates := gates[i := gates[i].(state := Withdrawn)];
      }
    }
    assert gates == seq(|r.gates|, i requires 0 <= i < |r.gates| =>
      if r.gates[i].state.Open? then r.gates[i].(state := Withdrawn) else r.gates[i]);
    s.runs := s.runs[rid := r.(gates := gates)];
  }

  // Write the transition row and its event, then carry out the side effects in order.
  method Record(s: Session, c: CoverageId, from: Option<C.State>, t: C.Transition, a: C.Action, rid: Option<RunId>)
    requires c < |s.coverages| && s.coverages[c].state == t.to
    modifies s
    ensures s.View() == ApplyEffects(Logged(old(s.View()), c, from, t, rid), c, a, rid, t.effects)
  {
    var cov := s.coverages[c];
    ghost var logged := Logged(s.View(), c, from, t, rid);
    s.coverages := s.coverages[c := cov.(log := cov.log + [C.LogRow(from, t.to, t.cause, rid)])];
    s.outbox := s.outbox + [Emission(C.StateChanged, c, rid, Some(t.to), Some(t.cause))];
    assert s.View() == logged;
    for i := 0 to |t.effects|
      invariant c < |s.coverages|
      invariant s.View() == ApplyEffects(logged, c, a, rid, t.effects[..i])
    {
      assert t.effects[..i + 1][..i] == t.effects[..i];
      Carry(s, c, a, rid, t.effects[i]);
    }
    assert t.effects[..|t.effects|] == t.effects;
  }

  datatype Outcome =
    | Taken
    | Illegal  // IllegalTransition, with nothing written yet
    | Broken   // the flush violates the lead constraint; the session is to be rolled back

  // The table and its guards let the action through.
  predicate Legal(db: Db, c: CoverageId, a: C.Action, rid: Option<RunId>, force: bool, note: bool, hasPosition: bool) {
    && c < |db.coverages|
    && C.Step(Some(db.coverages[c].state), a, BuildContext(db, a, rid, force, note, hasPosition)).Some?
  }

  method Transition(
    s: Session, c: CoverageId, a: C.Action, rid: Option<RunId>, force: bool, note: bool, hasPosition: bool)
    returns (o: Outcome)
    modifies s
    ensures o.Taken? <==> Protocol.Transition(old(s.View()), c, a, rid, force, note, hasPosition).Some?
    ensures o.Taken? ==> Some(s.View()) == Protocol.Transition(old(s.View()), c, a, rid, force, note, hasPosition)
    ensures o.Illegal? <==> !Legal(old(s.View()), c, a, rid, force, note, hasPosition)
    ensures o.Illegal? ==> s.View() == old(s.View())
  {
    if c >= |s.coverages| {
      return Illegal;
    }
    var from := s.coverages[c].state;
    var ctx := BuildContext(s.View(), a, rid, force, note, hasPosition);
    var t := C.Step(Some(from), a, ctx);
    if t.None? {
      return Illegal;
    }
    s.coverages := s.coverages[c := s.coverages[c].(state := t.value.to)];
    LoggedAfterMove(old(s.View()), s.View(), c, Some(from), t.value, rid);
    Record(s, c, Some(from), t.value, a, rid);
    if !LeadConstraint(s.coverages[c]) {
      return Broken;
    }
    return Taken;
  }

  // Setting the state first makes no difference to what is then recorded.
  lemma LoggedAfterMove(db: Db, moved: Db, c: CoverageId, from: Option<C.State>, t: C.Transition, rid: Option<RunId>)
    requires c < |db.coverages|
    requires moved == db.(coverages := db.coverages[c := db.coverages[c].(state := t.to)])
    ensures Logged(moved, c, from, t, rid) == Logged(db, c, from, t, rid)
  {
    var row := C.LogRow(from, t.to, t.cause, rid);
    var cov := db.coverages[c];
    assert moved.coverages[c := cov.(state := t.to, log := cov.log + [row])]
        == db.coverages[c := cov.(state := t.to, log := cov.log + [row])];
  }

  method Propose(s: Session) returns (c: CoverageId)
    modifies s
    ensures c == |old(s.coverages)| && Next(old(s.View()), Proposing, s.View())
  {
    c := |s.coverages|;
    s.coverages := s.coverages + [Coverage(C.Proposed, None, [])];
    var t := C.Step(None, C.Propose, C.HAPPY);
    ghost var row := C.LogRow(None, t.value.to, t.value.cause, None);
    ghost var logged := Logged(s.View(), c, None, t.value, None);
    assert [] + [row] == [row];
    assert logged.coverages == old(s.coverages) + [Coverage(C.Proposed, None, [row])];
    Record(s, c, None, t.value, C.Propose, None);
  }

  method SetLead(s: Session, c: CoverageId, house: House, flags: HouseFlags) returns (ok: bool)
    modifies s
    ensures ok <==> Protocol.SetLead(old(s.View()), c, house, flags).Some?
    ensures ok ==> Next(old(s.View()), Leading(c, house, flags), s.View())
    ensures !ok ==> s.View() == old(s.View())
  {
    if c >= |s.coverages| {
      return false;
    }
    var from := s.coverages[c].state;
    var ctx := C.HAPPY.(newHouseEnabled := flags.enabled, newHouseAssignable := flags.assignable,
        newHouseMeta := flags.meta);
    var t := C.Step(Some(from), C.SetLead, ctx);
    if t.None? {
      return false;
    }
    s.coverages := s.coverages[c := s.coverages[c].(lead := Some(house))];
    assert t.value.to == from;
    Record(s, c, Some(from), t.value, C.SetLead, None);
    return true;
  }
}
