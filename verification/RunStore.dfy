// The runs repository on a session (core/db/repo/runs.py).
module RunStore {
  import opened Domain
  import opened Protocol
  import opened Store
  import R = RunMachine
  import C = CoverageMachine
  import Plans = Planner

  // None: a seat has no house, or a house that is not in the houses table.
  method AddStages(plan: seq<Plans.StageIn>, houses: set<House>, now: Time) returns (stages: Option<seq<Stage>>)
    ensures stages.Some? <==> Seatable(plan, houses)
    ensures stages.Some? ==> stages.value == NewStages(plan, houses, now)
  {
    var out: seq<Stage> := [];
    for i := 0 to |plan|
      invariant Seatable(plan[..i], houses) && |out| == i
      invariant forall j | 0 <= j < i :: plan[j].house.Some? && out[j] == NewStage(plan[j], now)
    {
      if plan[i].house.None? || plan[i].house.value !in houses {
        assert !(plan[i].house.Some? && plan[i].house.value in houses);
        return None;
      }
      out := out + [NewStage(plan[i], now)];
    }
    assert plan[..|plan|] == plan;
    return Some(out);
  }

  // Insert a queued run and its stages.
  method CreateRun(s: Session, coverage: CoverageId, kind: RunType, priority: int, cap: real, lead: Option<House>,
                   plan: seq<Plans.StageIn>, houses: set<House>)
    returns (ok: bool)
    modifies s
    ensures ok <==> Seatable(plan, houses)
    ensures !ok ==> s.View() == old(s.View())
    ensures ok ==> s.View() == old(s.View()).(
      runs := old(s.runs) + [Run(coverage, kind, RunStatus.Queued, priority, s.now, cap, 0.0, lead,
                                 NewStages(plan, houses, s.now), [])])
  {
    var stages := AddStages(plan, houses, s.now);
    if stages.None? {
      return false;
    }
    s.runs := s.runs + [Run(coverage, kind, RunStatus.Queued, priority, s.now, cap, 0.0, lead, stages.value, [])];
    return true;
  }

  // Take the per-ticker lock if nobody has it, and run only as its owner.
  method StartRun(s: Session, rid: RunId) returns (ok: bool)
    requires rid < |s.runs|
    modifies s
    ensures Protocol.StartRun(old(s.View()), rid) == Started(s.View(), ok)
    ensures ok <==> !Mutates(old(s.runs)[rid].kind) || s.locks[old(s.runs)[rid].coverage] == rid
  {
    var r := s.runs[rid];
    if Mutates(r.kind) {
      if r.coverage !in s.locks {
        s.locks := s.locks[r.coverage := rid];
      }
      if s.locks[r.coverage] != rid {
        return false;
      }
    }
    s.SetRun(rid, r.(status := RunStatus.Running));
    return true;
  }

  method Restatus(s: Session, rid: RunId, action: R.RunAction) returns (ok: bool)
    requires rid < |s.runs|
    modifies s
    ensures ok <==> ChangeStatus(old(s.View()), rid, action).Some?
    ensures ok ==> Some(s.View()) == ChangeStatus(old(s.View()), rid, action)
    ensures !ok ==> s.View() == old(s.View())
  {
    var change := R.RunTransition(s.runs[rid].status, action, 0, 1);
    if change.None? {
      return false;
    }
    s.SetRun(rid, s.runs[rid].(status := change.value.to));
    return true;
  }

  method RequeueRun(s: Session, rid: RunId) returns (ok: bool)
    requires rid < |s.runs|
    modifies s
    ensures ok <==> old(s.runs)[rid].status.Running?
    ensures ok <==> ChangeStatus(old(s.View()), rid, R.Requeue).Some?
    ensures ok ==> Some(s.View()) == ChangeStatus(old(s.View()), rid, R.Requeue)
    ensures s.View() == if ok then Protocol.SetRun(old(s.View()), rid, old(s.runs)[rid].(status := RunStatus.Queued))
        else old(s.View())
  {
    ok := Restatus(s, rid, R.Requeue);
  }

  function CarriedOne(db: Db, rid: RunId, e: R.RunEffect): (after: Db)
    requires rid < |db.runs|
    ensures after.runs == db.runs
  {
    match e
    case ReleaseLock => db.(locks := ReleaseLocks(db.locks, rid))
    case EmitRunFinished => db.(outbox := db.outbox + [Emission(C.RunFinished, db.runs[rid].coverage, Some(rid),
        None, None)])
    case _ => db
  }

  function Carried(db: Db, rid: RunId, es: seq<R.RunEffect>): (after: Db)
    requires rid < |db.runs|
    ensures after.runs == db.runs
  {
    if es == [] then db else CarriedOne(Carried(db, rid, es[..|es| - 1]), rid, es[|es| - 1])
  }

  lemma CarriedBoth(db: Db, rid: RunId)
    requires rid < |db.runs|
    ensures Carried(db, rid, [R.ReleaseLock, R.EmitRunFinished])
         == CarriedOne(CarriedOne(db, rid, R.ReleaseLock), rid, R.EmitRunFinished)
  {
    var es := [R.ReleaseLock, R.EmitRunFinished];
    assert es[..1] == [R.ReleaseLock] && es[..1][..0] == [];
    assert Carried(db, rid, [R.ReleaseLock]) == CarriedOne(Carried(db, rid, []), rid, R.ReleaseLock);
  }

  lemma FinishCarries(db: Db, rid: RunId, status: RunStatus)
    requires rid < |db.runs|
    requires R.RunTransition(db.runs[rid].status, FinishAction(status), 0, 1).Some?
    ensures var change := R.RunTransition(db.runs[rid].status, FinishAction(status), 0, 1).value;
            Finish(db, rid, status)
            == Some(Carried(Protocol.SetRun(db, rid, db.runs[rid].(status := change.to)), rid, change.effects))
  {
    var change := R.RunTransition(db.runs[rid].status, FinishAction(status), 0, 1).value;
    assert change.effects == [R.ReleaseLock, R.EmitRunFinished];
    CarriedBoth(Protocol.SetRun(db, rid, db.runs[rid].(status := change.to)), rid);
  }

  method Carry(s: Session, rid: RunId, e: R.RunEffect)
    requires rid < |s.runs|
    modifies s
    ensures s.View() == CarriedOne(old(s.View()), rid, e)
  {
    match e
    case ReleaseLock =>
      s.locks := map c | c in s.locks && s.locks[c] != rid :: s.locks[c];
    case EmitRunFinished =>
      s.outbox := s.outbox + [Emission(C.RunFinished, s.runs[rid].coverage, Some(rid), None, None)];
    case _ =>
  }

  method CarryAll(s: Session, rid: RunId, effects: seq<R.RunEffect>)
    requires rid < |s.runs|
    modifies s
    ensures s.View() == Carried(old(s.View()), rid, effects)
  {
    for i := 0 to |effects|
      invariant s.View() == Carried(old(s.View()), rid, effects[..i])
    {
      assert effects[..i + 1][..i] == effects[..i];
      Carry(s, rid, effects[i]);
    }
    assert effects[..|effects|] == effects;
  }

  // The terminal change and then its side effects, one by one.
  method FinishRun(s: Session, rid: RunId, status: RunStatus) returns (ok: bool)
    modifies s
    ensures ok <==> Finish(old(s.View()), rid, status).Some?
    ensures ok ==> Some(s.View()) == Finish(old(s.View()), rid, status)
    ensures !ok ==> s.View() == old(s.View())
  {
    if rid >= |s.runs| {
      return false;
    }
    var change := R.RunTransition(s.runs[rid].status, FinishAction(status), 0, 1);
    if change.None? {
      return false;
    }
    FinishCarries(s.View(), rid, status);
    s.SetRun(rid, s.runs[rid].(status := change.value.to));
    CarryAll(s, rid, change.value.effects);
    return true;
  }

  method OpenGate(s: Session, rid: RunId, gate: Gate)
    requires rid < |s.runs|
    modifies s
    ensures s.View() == Protocol.SetRun(old(s.View()), rid, old(s.runs)[rid].(gates := old(s.runs)[rid].gates + [gate]))
  {
    s.SetRun(rid, s.runs[rid].(gates := s.runs[rid].gates + [gate]));
  }

  // Does another gate carry this key?
  method FindKey(s: Session, rid: RunId, g: nat, key: string) returns (taken: bool)
    ensures taken <==> KeyTaken(s.runs, rid, g, key)
  {
    for q := 0 to |s.runs|
      invariant forall p: RunId, h: nat | p < q && h < |s.runs[p].gates|
          && (p, h) != (rid, g) :: s.runs[p].gates[h].key != Some(key)
    {
      for h := 0 to |s.runs[q].gates|
        invariant forall i: nat | i < h && (q, i) != (rid, g) :: s.runs[q].gates[i].key != Some(key)
      {
        if (q, h) != (rid, g) && s.runs[q].gates[h].key == Some(key) {
          return true;
        }
      }
    }
    return false;
  }

  // The same answer under the same key is a replay; any other answer overwrites the last.
  method AnswerGate(s: Session, rid: RunId, g: nat, answer: string, key: string) returns (ok: bool)
    modifies s
    ensures ok <==> Protocol.AnswerGate(old(s.View()), rid, g, answer, key).Some?
    ensures ok ==> Next(old(s.View()), Answering(rid, g, answer, key), s.View())
    ensures !ok ==> s.View() == old(s.View())
  {
    if rid >= |s.runs| || g >= |s.runs[rid].gates| {
      return false;
    }
    var gate := s.runs[rid].gates[g];
    if gate.state.Answered? && gate.key == Some(key) {
      return true;
    }
    var taken := FindKey(s, rid, g, key);
    if taken {
      return false;
    }
    gate := gate.(state := Answered);
    gate := gate.(answer := Some(answer));
    gate := gate.(key := Some(key));
    s.SetRun(rid, s.runs[rid].(gates := s.runs[rid].gates[g := gate]));
    return true;
  }
}
