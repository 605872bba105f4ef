// The orchestrator's tick (core/orchestrator/engine.py).
module Ticks {
  import opened Domain
  import opened Protocol
  import opened Invariants
  import opened Store
  import opened Worker
  import opened Orchestrator
  import opened Starvation

  lemma Starves(from: Point, to: Point, legs: seq<Leg>, setup: Setup)
    requires Inv(from.db) && FundOk(setup.fund) && Ticked(from, to, legs, setup)
    ensures forall rid: RunId :: !Stuck(from.db, rid)
  {
    forall rid: RunId | Stuck(from.db, rid) ensures false {
      EveryTickRaises(from, to, legs, setup, rid);
    }
  }

  // One tick: promote every run that was queued, then advance every run that is then
  // running, each exactly once and in that order; all of it or, if one raises, nothing. One
  // run that no pass can get past makes every tick raise.
  method Tick(s: Session, runner: Runner, setup: Setup) returns (ok: bool, ghost legs: seq<Leg>, ghost last: Leg)
    requires Inv(s.View()) && FundOk(setup.fund) && setup.shift.script == runner.script
    modifies s, runner
    ensures ok ==> Ticked(Point(old(s.View()), old(runner.failCount)), Point(s.View(), runner.failCount), legs, setup)
    ensures forall rid: RunId | Stuck(old(s.View()), rid) :: !ok
    ensures !ok ==> TickRaises(Point(old(s.View()), old(runner.failCount)), legs, last, setup)
    ensures !ok ==> s.View() == old(s.View())
  {
    var start := s.View();
    ghost var from := Point(start, runner.failCount);
    legs := [];
    last := Idle(from, setup);
    ok := PromoteAll(s, setup.houses);
    if ok {
      ok, legs, last := AdvanceAll(s, runner, setup);
    }
    if ok {
      Starves(from, Point(s.View(), runner.failCount), legs, setup);
    } else {
      s.Rollback(start);
    }
  }
}
