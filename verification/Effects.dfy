// What each coverage action amounts to once its table row, its guards and its listed side
// effects have been carried out (core/db/repo/coverage.py).
module Effects {
  import opened Domain
  import opened Protocol
  import C = CoverageMachine

  predicate Inert(e: C.Effect) {
    e.Ignored? || e == C.Emit(C.StateChanged)
  }

  // Effects after the first that are inert change nothing further.
  lemma {:induction false} FirstEffectOnly(db: Db, c: CoverageId, a: C.Action, rid: Option<RunId>, es: seq<C.Effect>)
    requires c < |db.coverages| && |es| > 0
    requires forall i | 1 <= i < |es| :: Inert(es[i])
    ensures ApplyEffects(db, c, a, rid, es) == ApplyEffect(db, c, a, rid, es[0])
  {
    if |es| == 1 {
      assert es[..0] == [];
      assert ApplyEffects(db, c, a, rid, es[..0]) == db;
    } else {
      FirstEffectOnly(db, c, a, rid, es[..|es| - 1]);
    }
  }

  lemma TwoEffects(db: Db, c: CoverageId, a: C.Action, rid: Option<RunId>, e: C.Effect, f: C.Effect)
    requires c < |db.coverages|
    ensures ApplyEffects(db, c, a, rid, [e, f]) == ApplyEffect(ApplyEffect(db, c, a, rid, e), c, a, rid, f)
  {
    assert [e, f][..1] == [e];
    FirstEffectOnly(db, c, a, rid, [e]);
  }


  // The coverage after taking table row t.
  function Moved(cov: Coverage, t: C.Transition, rid: Option<RunId>): Coverage {
    Coverage(t.to, cov.lead, cov.log + [C.LogRow(Some(cov.state), t.to, t.cause, rid)])
  }

  function Change(c: CoverageId, t: C.Transition, rid: Option<RunId>): Emission {
    Emission(C.StateChanged, c, rid, Some(t.to), Some(t.cause))
  }

  lemma ProposeMeaning(db: Db)
    ensures var t := C.Table(None, C.Propose).value;
            Propose(db) == db.(
              coverages := db.coverages + [Coverage(C.Proposed, None,
                  [C.LogRow(None, C.Proposed, C.ByProposal, None)])],
              outbox := db.outbox + [Change(|db.coverages|, t, None)])
  {
    var t := C.Table(None, C.Propose).value;
    var c := |db.coverages|;
    var db1 := db.(coverages := db.coverages + [Coverage(t.to, None, [C.LogRow(None, t.to, t.cause, None)])],
                   outbox := db.outbox + [Change(c, t, None)]);
    FirstEffectOnly(db1, c, C.Propose, None, t.effects);
  }

  // promote, demote, exit and re-propose: the log row, its event, nothing else.
  lemma SteerMeaning(db: Db, c: CoverageId, a: C.Action, force: bool, note: bool, hasPosition: bool)
    requires PmAction(a) && Transition(db, c, a, None, force, note, hasPosition).Some?
    ensures c < |db.coverages| && C.Table(Some(db.coverages[c].state), a).Some?
    ensures var t := C.Table(Some(db.coverages[c].state), a).value;
            Transition(db, c, a, None, force, note, hasPosition).value == db.(
              coverages := db.coverages[c := Moved(db.coverages[c], t, None)],
              outbox := db.outbox + [Change(c, t, None)])
  {
    var from := Some(db.coverages[c].state);
    var t := C.Table(from, a).value;
    FirstEffectOnly(Logged(db, c, from, t, None), c, a, None, t.effects);
  }

  // On a coverage that meets the constraint a legal PM action never violates it.
  lemma SteerKeepsConstraint(db: Db, c: CoverageId, a: C.Action, force: bool, note: bool, hasPosition: bool)
    requires PmAction(a) && c < |db.coverages| && LeadConstraint(db.coverages[c])
    requires C.Step(Some(db.coverages[c].state), a, BuildContext(db, a, None, force, note, hasPosition)).Some?
    ensures Transition(db, c, a, None, force, note, hasPosition).Some?
  {
    var from := Some(db.coverages[c].state);
    var t := C.Table(from, a).value;
    FirstEffectOnly(Logged(db, c, from, t, None), c, a, None, t.effects);
  }

  lemma LeadMeaning(db: Db, c: CoverageId, house: House, flags: HouseFlags)
    requires SetLead(db, c, house, flags).Some?
    ensures c < |db.coverages| && C.Live(db.coverages[c].state)
    ensures var cov := db.coverages[c];
            var t := C.Table(Some(cov.state), C.SetLead).value;
            SetLead(db, c, house, flags).value == db.(
              coverages := db.coverages[c := Moved(cov.(lead := Some(house)), t, None)],
              outbox := db.outbox + [Change(c, t, None)])
  {
    var from := Some(db.coverages[c].state);
    var t := C.Table(from, C.SetLead).value;
    var led := db.(coverages := db.coverages[c := db.coverages[c].(lead := Some(house))]);
    FirstEffectOnly(Logged(led, c, from, t, None), c, C.SetLead, None, t.effects);
  }

  lemma StartMeaning(db: Db, c: CoverageId, rid: RunId)
    requires c < |db.coverages| && rid < |db.runs| && db.coverages[c].state.Proposed?
    ensures var t := C.Table(Some(C.Proposed), C.StartInitiation).value;
            ByRun(db, c, C.StartInitiation, rid) == Some(db.(
              coverages := db.coverages[c := Moved(db.coverages[c], t, Some(rid)).(lead := db.runs[rid].leadHouse)],
              outbox := db.outbox + [Change(c, t, Some(rid))]))
  {
    var t := C.Table(Some(C.Proposed), C.StartInitiation).value;
    var logged := Logged(db, c, Some(C.Proposed), t, Some(rid));
    FirstEffectOnly(logged, c, C.StartInitiation, Some(rid), t.effects);
    var moved := Moved(db.coverages[c], t, Some(rid));
    assert logged.coverages == db.coverages[c := moved];
    assert db.coverages[c := moved][c := moved.(lead := db.runs[rid].leadHouse)]
        == db.coverages[c := moved.(lead := db.runs[rid].leadHouse)];
  }

  // A delivery goes through exactly while the coverage is initiating and has a lead.
  lemma DeliverMeaning(db: Db, c: CoverageId, rid: RunId)
    requires c < |db.coverages| && rid < |db.runs|
    ensures ByRun(db, c, C.InitiationDelivered, rid).Some? <==> Deliverable(db.coverages[c])
    ensures Deliverable(db.coverages[c]) ==>
              var t := C.Table(Some(C.Initiating), C.InitiationDelivered).value;
              var r := db.runs[rid];
              ByRun(db, c, C.InitiationDelivered, rid) == Some(db.(
                coverages := db.coverages[c := Moved(db.coverages[c], t, Some(rid))],
                runs := db.runs[rid := r.(gates := r.gates + [DECISION_GATE])],
                outbox := db.outbox + [Change(c, t, Some(rid))] + [Emission(C.GateOpened, c, Some(rid), None, None)]))
  {
    if db.coverages[c].state.Initiating? {
      var t := C.Table(Some(C.Initiating), C.InitiationDelivered).value;
      assert t.effects == [C.OpenDecisionGate, C.Emit(C.GateOpened)];
      TwoEffects(Logged(db, c, Some(C.Initiating), t, Some(rid)), c, C.InitiationDelivered, Some(rid),
                 C.OpenDecisionGate, C.Emit(C.GateOpened));
    }
  }

  predicate Deliverable(cov: Coverage) {
    cov.state.Initiating? && cov.lead.Some?
  }

  lemma FailMeaning(db: Db, c: CoverageId, rid: RunId)
    requires c < |db.coverages| && db.coverages[c].state.Initiating?
    ensures var t := C.Table(Some(C.Initiating), C.InitiationFailed).value;
            ByRun(db, c, C.InitiationFailed, rid) == Some(db.(
              coverages := db.coverages[c := Moved(db.coverages[c], t, Some(rid))],
              outbox := db.outbox + [Change(c, t, Some(rid))] + [Emission(C.RunFinished, c, Some(rid), None, None)]))
  {
    var t := C.Table(Some(C.Initiating), C.InitiationFailed).value;
    FirstEffectOnly(Logged(db, c, Some(C.Initiating), t, Some(rid)), c, C.InitiationFailed, Some(rid), t.effects);
  }

  // The coverage, the run and the outbox once a decision has answered the run's open gate.
  function DecisionMade(db: Db, c: CoverageId, a: C.Action, rid: RunId): Db
    requires c < |db.coverages| && C.IsDecide(a) && OpenGateOf(db, Some(rid)).Some?
  {
    var t := C.Table(Some(C.DecisionPending), a).value;
    var r := db.runs[rid];
    var g := FirstOpen(r.gates).value;
    db.(coverages := db.coverages[c := Moved(db.coverages[c], t, Some(rid))],
        runs := db.runs[rid := r.(gates := r.gates[g := AnsweredBy(r.gates[g], DecisionAnswer(a))])],
        outbox := db.outbox + [Change(c, t, Some(rid))])
  }

  lemma DecisionApplied(db: Db, c: CoverageId, a: C.Action, rid: RunId)
    requires c < |db.coverages| && C.IsDecide(a) && OpenGateOf(db, Some(rid)).Some?
    requires db.coverages[c].state.DecisionPending?
    ensures var t := C.Table(Some(C.DecisionPending), a).value;
            ApplyEffects(Logged(db, c, Some(C.DecisionPending), t, Some(rid)), c, a, Some(rid), t.effects)
            == DecisionMade(db, c, a, rid)
  {
    var t := C.Table(Some(C.DecisionPending), a).value;
    FirstEffectOnly(Logged(db, c, Some(C.DecisionPending), t, Some(rid)), c, a, Some(rid), t.effects);
  }

  lemma DecisionLegal(db: Db, c: CoverageId, a: C.Action, rid: Option<RunId>)
    requires c < |db.coverages| && C.IsDecide(a)
    ensures var gate := OpenGateOf(db, rid);
            var ctx := BuildContext(db, a, rid, false, false, false);
            C.Step(Some(db.coverages[c].state), a, ctx).Some? <==>
              db.coverages[c].state.DecisionPending? && gate.Some? && DecisionAnswer(a) in gate.value.allowed
  {
  }

  // A decision goes through exactly on a pending coverage whose given run has an open gate
  // that allows the answer, and which has a lead if it is to live; it answers that gate.
  lemma DecideMeaning(db: Db, c: CoverageId, a: C.Action, rid: Option<RunId>)
    requires c < |db.coverages| && C.IsDecide(a)
    ensures var gate := OpenGateOf(db, rid);
            Transition(db, c, a, rid, false, false, false).Some? <==>
              && db.coverages[c].state.DecisionPending? && gate.Some? && DecisionAnswer(a) in gate.value.allowed
              && (a.DecideReject? || db.coverages[c].lead.Some?)
    ensures Transition(db, c, a, rid, false, false, false).Some? ==>
              Transition(db, c, a, rid, false, false, false).value == DecisionMade(db, c, a, rid.value)
  {
    DecisionLegal(db, c, a, rid);
    if db.coverages[c].state.DecisionPending? && OpenGateOf(db, rid).Some? {
      DecisionApplied(db, c, a, rid.value);
    }
  }
}
