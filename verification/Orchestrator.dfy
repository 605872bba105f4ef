// One advance of a run, and one tick over all of them (core/orchestrator/engine.py).
module Orchestrator {
  import opened Domain
  import opened Protocol
  import opened Invariants
  import opened Sources
  import opened Traces
  import opened Store
  import opened Worker
  import P = Predictions
  import Engine

  // How the tick's caller configured it.
  datatype Setup = Setup(fund: Fund, houses: set<House>, shift: Shift, contributors: CoverageId -> seq<House>)

  // The database, and how often the runner has failed so far.
  datatype Point = Point(db: Db, fails: nat)

  // ---- advance_run

  // The pass the configuration calls for; what the target query answers is up to it.
  ghost predicate PassFor(db: Db, rid: RunId, pass: Pass, setup: Setup)
    requires rid < |db.runs|
  {
    && pass.fund == setup.fund
    && P.IsLastTarget(db.ledger, db.runs[rid].coverage, pass.lastTp)
    && (db.runs[rid].status.Running? ==> pass.contributors == setup.contributors(db.runs[rid].coverage))
  }

  // What comes before the pass: a full drain if the run is running, nothing otherwise.
  ghost predicate Worked(from: Point, at: Db, drain: Trace, rid: RunId, setup: Setup)
    requires rid < |from.db.runs|
  {
    && Drained(from.db, at, drain, setup.shift, from.fails)
    && if from.db.runs[rid].status.Running? then Exhausted(at, drain.steps, setup.shift) else drain == Still(from.db)
  }

  // The drain before the pass over a running run.
  method DrainFirst(s: Session, rid: RunId, runner: Runner, setup: Setup) returns (ghost drain: Trace)
    requires Inv(s.View()) && setup.shift.script == runner.script && rid < |s.runs| && s.runs[rid].status.Running?
    modifies s, runner
    ensures Worked(Point(old(s.View()), old(runner.failCount)), s.View(), drain, rid, setup)
    ensures runner.failCount == old(runner.failCount) + Failures(drain.steps)
    ensures Inv(s.View()) && rid < |s.runs| && s.runs[rid].status.Running?
    ensures s.runs[rid].coverage == old(s.runs)[rid].coverage
  {
    ghost var start, fails := s.View(), runner.failCount;
    var n;
    n, drain := Drain(s, runner, setup.shift);
    DrainKeepsRun(start, s.View(), drain, rid, setup.shift, fails);
  }

  // Drain the queue, then pass over the run; the pass starts from what the drain left.
  // False: the pass raised.
  method AdvanceRun(s: Session, rid: RunId, runner: Runner, setup: Setup)
    returns (ok: bool, ghost drain: Trace, ghost at: Db, ghost pass: Pass)
    requires Inv(s.View()) && FundOk(setup.fund) && setup.shift.script == runner.script && rid < |s.runs|
    modifies s, runner
    ensures Worked(Point(old(s.View()), old(runner.failCount)), at, drain, rid, setup)
    ensures runner.failCount == old(runner.failCount) + Failures(drain.steps)
    ensures rid < |at.runs| && PassFor(at, rid, pass, setup)
    ensures ok <==> Advance(at, rid, pass).Some?
    ensures ok ==> Advance(at, rid, pass) == Some(s.View())
    ensures !old(s.runs)[rid].status.Running? ==> ok && s.View() == old(s.View())
  {
    at := s.View();
    if !s.runs[rid].status.Running? {
      pass := IdlePass(at, rid, setup, runner.failCount);
      return true, Still(at), at, pass;
    }
    drain := DrainFirst(s, rid, runner, setup);
    at := s.View();
    ok, pass := Engine.FinishPass(s, rid, setup.fund, setup.contributors(s.runs[rid].coverage));
  }

  // A pass over a run that is not running does nothing, and nothing is drained for it.
  lemma IdlePass(db: Db, rid: RunId, setup: Setup, fails: nat) returns (pass: Pass)
    requires rid < |db.runs| && !db.runs[rid].status.Running?
    ensures Worked(Point(db, fails), db, Still(db), rid, setup) && Failures(Still(db).steps) == 0
    ensures PassFor(db, rid, pass, setup) && Advance(db, rid, pass) == Some(db)
  {
    var tp := Engine.LastTargetExists(db.ledger, db.runs[rid].coverage);
    pass := Pass(setup.fund, [], tp);
  }

  lemma DrainKeepsRun(start: Db, mid: Db, drain: Trace, rid: RunId, shift: Shift, fails: nat)
    requires Inv(start) && Drained(start, mid, drain, shift, fails) && rid < |start.runs|
    ensures Inv(mid)
    ensures rid < |mid.runs| && SameStanding(start.runs[rid], mid.runs[rid])
    ensures mid.runs[rid].coverage == start.runs[rid].coverage
  {
    DrainStands(start, mid, drain, shift, fails);
    DrainReaches(start, mid, drain, shift, fails);
    ReachesKeeps(drain, start, mid);
    assert RunEvolves(start.runs[rid], mid.runs[rid]);
  }

  // ---- tick

  function IdsWith(runs: seq<Run>, status: RunStatus, n: nat): seq<RunId>
    requires n <= |runs|
  {
    if n == 0 then []
    else IdsWith(runs, status, n - 1) + if runs[n - 1].status == status then [n - 1] else []
  }

  method FindByStatus(s: Session, status: RunStatus) returns (ids: seq<RunId>)
    ensures ids == IdsWith(s.runs, status, |s.runs|)
    ensures forall i | 0 <= i < |ids| :: ids[i] < |s.runs|
  {
    ids := [];
    for i := 0 to |s.runs|
      invariant ids == IdsWith(s.runs, status, i)
      invariant forall j | 0 <= j < |ids| :: ids[j] < i
    {
      if s.runs[i].status == status {
        ids := ids + [i];
      }
    }
  }

  // The query finds every run with the status, once, in table order.
  lemma {:induction false} IdsWithExact(runs: seq<Run>, status: RunStatus, n: nat)
    requires n <= |runs|
    ensures var ids := IdsWith(runs, status, n);
            && (forall rid: RunId :: rid in ids <==> rid < n && runs[rid].status == status)
            && (forall i, j | 0 <= i < j < |ids| :: ids[i] < ids[j])
  {
    if n > 0 {
      IdsWithExact(runs, status, n - 1);
      var init := IdsWith(runs, status, n - 1);
      forall i | 0 <= i < |init| ensures init[i] < n - 1 {
        assert init[i] in init;
      }
    }
  }

  // ---- what a tick amounts to

  // Promote the first n runs in order; None: one of them raises.
  function PromoteEach(db: Db, ids: seq<RunId>, n: nat, houses: set<House>): Option<Db>
    requires n <= |ids|
  {
    if n == 0 then Some(db)
    else
      var before := PromoteEach(db, ids, n - 1, houses);
      if before.None? then None
      else
        var last := Promote(before.value, ids[n - 1], houses);
        if last.None? then None else Some(last.value.db)
  }

  // One run's turn: the queue is drained, and the pass over the run goes through.
  datatype Leg = Leg(before: Point, drain: Trace, at: Db, pass: Pass, after: Point)

  ghost predicate TurnBy(from: Point, at: Db, drain: Trace, rid: RunId, pass: Pass, setup: Setup) {
    && rid < |from.db.runs| && Worked(from, at, drain, rid, setup)
    && rid < |at.runs| && PassFor(at, rid, pass, setup)
  }

  ghost predicate LegOk(leg: Leg, rid: RunId, setup: Setup) {
    && TurnBy(leg.before, leg.at, leg.drain, rid, leg.pass, setup)
    && Advance(leg.at, rid, leg.pass) == Some(leg.after.db)
    && leg.after.fails == leg.before.fails + Failures(leg.drain.steps)
  }

  // Its turn comes, and the pass raises.
  ghost predicate LegRaises(leg: Leg, rid: RunId, setup: Setup) {
    TurnBy(leg.before, leg.at, leg.drain, rid, leg.pass, setup) && Advance(leg.at, rid, leg.pass).None?
  }

  ghost function EndOf(from: Point, legs: seq<Leg>): Point {
    if legs == [] then from else legs[|legs| - 1].after
  }

  // The first runs have had their turns, in order, each starting where the last one ended.
  ghost predicate Tour(from: Point, ids: seq<RunId>, legs: seq<Leg>, setup: Setup) {
    && |legs| <= |ids|
    && (forall i | 0 <= i < |legs| :: legs[i].before == EndOf(from, legs[..i]))
    && (forall i | 0 <= i < |legs| :: LegOk(legs[i], ids[i], setup))
  }

  function QueuedRuns(db: Db): seq<RunId> {
    IdsWith(db.runs, RunStatus.Queued, |db.runs|)
  }

  function PromoteQueued(db: Db, houses: set<House>): Option<Db> {
    PromoteEach(db, QueuedRuns(db), |QueuedRuns(db)|, houses)
  }

  function RunningRuns(db: Db): seq<RunId> {
    IdsWith(db.runs, RunStatus.Running, |db.runs|)
  }

  // Every queued run was promoted, then every run that was then running had its turn.
  ghost predicate Ticked(from: Point, to: Point, legs: seq<Leg>, setup: Setup) {
    var mid := PromoteQueued(from.db, setup.houses);
    && mid.Some? && Tour(Point(mid.value, from.fails), RunningRuns(mid.value), legs, setup)
    && |legs| == |RunningRuns(mid.value)| && to == EndOf(Point(mid.value, from.fails), legs)
  }

  // Some promotion raises or, after the turns before it, some run's turn does.
  ghost predicate TickRaises(from: Point, legs: seq<Leg>, last: Leg, setup: Setup) {
    var mid := PromoteQueued(from.db, setup.houses);
    mid.Some? ==> TourRaises(Point(mid.value, from.fails), RunningRuns(mid.value), legs, last, setup)
  }

  ghost predicate TourRaises(from: Point, ids: seq<RunId>, legs: seq<Leg>, last: Leg, setup: Setup) {
    && Tour(from, ids, legs, setup) && |legs| < |ids|
    && last.before == EndOf(from, legs) && LegRaises(last, ids[|legs|], setup)
  }

  lemma TourOn(from: Point, ids: seq<RunId>, legs: seq<Leg>, leg: Leg, setup: Setup)
    requires Tour(from, ids, legs, setup) && |legs| < |ids|
    requires leg.before == EndOf(from, legs) && LegOk(leg, ids[|legs|], setup)
    ensures Tour(from, ids, legs + [leg], setup) && EndOf(from, legs + [leg]) == leg.after
  {
    var more := legs + [leg];
    forall i | 0 <= i < |more| ensures more[i].before == EndOf(from, more[..i]) && LegOk(more[i], ids[i], setup) {
      if i < |legs| {
        assert more[..i] == legs[..i] && LegOk(legs[i], ids[i], setup);
      } else {
        assert more[..i] == legs;
      }
    }
  }

  lemma {:induction false} PromotionsStop(db: Db, ids: seq<RunId>, n: nat, m: nat, houses: set<House>)
    requires n <= m <= |ids| && PromoteEach(db, ids, n, houses).None?
    ensures PromoteEach(db, ids, m, houses).None?
    decreases m - n
  {
    if n < m {
      PromotionsStop(db, ids, n + 1, m, houses);
    }
  }

  // ---- the loops

  // How far the promotions have come.
  ghost predicate PromotedTo(start: Db, now: Db, ids: seq<RunId>, n: nat, houses: set<House>) {
    n <= |ids| && PromoteEach(start, ids, n, houses) == Some(now) && Inv(now) && |start.runs| <= |now.runs|
  }

  lemma PromotedOn(start: Db, mid: Db, ids: seq<RunId>, n: nat, houses: set<House>, after: Started)
    requires PromotedTo(start, mid, ids, n, houses) && n < |ids| && Promote(mid, ids[n], houses) == Some(after)
    requires Next(mid, Promoting(ids[n], houses), after.db)
    ensures PromotedTo(start, after.db, ids, n + 1, houses)
  {
    NextKeeps(mid, Promoting(ids[n], houses), after.db);
  }

  method PromoteAll(s: Session, houses: set<House>) returns (ok: bool)
    requires Inv(s.View())
    modifies s
    ensures ok <==> PromoteQueued(old(s.View()), houses).Some?
    ensures ok ==> PromoteQueued(old(s.View()), houses) == Some(s.View()) && Inv(s.View())
  {
    var ids := FindByStatus(s, RunStatus.Queued);
    ghost var start := s.View();
    for i := 0 to |ids|
      invariant PromotedTo(start, s.View(), ids, i, houses)
    {
      ghost var before := s.View();
      var started;
      ok, started := Engine.PromoteRun(s, ids[i], houses);
      if !ok {
        PromotionsStop(start, ids, i + 1, |ids|, houses);
        return false;
      }
      PromotedOn(start, before, ids, i, houses, Started(s.View(), started));
    }
    ok := true;
  }

  ghost function Idle(from: Point, setup: Setup): Leg {
    Leg(from, Still(from.db), from.db, Pass(setup.fund, [], None), from)
  }

  // The state after some turns is as good as the one before them.
  lemma TourStands(start: Point, ids: seq<RunId>, legs: seq<Leg>, setup: Setup)
    requires Inv(start.db) && FundOk(setup.fund) && Tour(start, ids, legs, setup)
    ensures Inv(EndOf(start, legs).db) && |start.db.runs| <= |EndOf(start, legs).db.runs|
  {
    var p := TourPath(start, ids, legs, setup, |legs|);
    ReachesKeeps(p, start.db, EndOf(start, legs).db);
  }

  lemma TourNext(start: Point, ids: seq<RunId>, legs: seq<Leg>, leg: Leg, ok: bool, setup: Setup)
    requires Tour(start, ids, legs, setup) && leg.before == EndOf(start, legs) && |legs| < |ids|
    requires if ok then LegOk(leg, ids[|legs|], setup) else LegRaises(leg, ids[|legs|], setup)
    ensures if ok then Tour(start, ids, legs + [leg], setup) && EndOf(start, legs + [leg]) == leg.after
            else TourRaises(start, ids, legs, leg, setup)
  {
    if ok {
      TourOn(start, ids, legs, leg, setup);
    }
  }

  // The next run's turn. False: its pass raises.
  method TakeTurn(
    s: Session, ids: seq<RunId>, runner: Runner, setup: Setup, ghost start: Point, n: nat, ghost legs: seq<Leg>)
    returns (ok: bool, ghost more: seq<Leg>, ghost last: Leg)
    requires Inv(start.db) && FundOk(setup.fund) && setup.shift.script == runner.script
    requires Tour(start, ids, legs, setup) && Point(s.View(), runner.failCount) == EndOf(start, legs)
    requires |legs| == n < |ids| && ids[n] < |start.db.runs|
    modifies s, runner
    ensures ok ==> Tour(start, ids, more, setup) && |more| == n + 1
    ensures ok ==> Point(s.View(), runner.failCount) == EndOf(start, more)
    ensures !ok ==> TourRaises(start, ids, legs, last, setup)
  {
    ghost var before := Point(s.View(), runner.failCount);
    TourStands(start, ids, legs, setup);
    ghost var drain, at, pass;
    ok, drain, at, pass := AdvanceRun(s, ids[n], runner, setup);
    last := Leg(before, drain, at, pass, Point(s.View(), runner.failCount));
    TourNext(start, ids, legs, last, ok, setup);
    more := legs + [last];
  }

  method AdvanceAll(s: Session, runner: Runner, setup: Setup)
    returns (ok: bool, ghost legs: seq<Leg>, ghost last: Leg)
    requires Inv(s.View()) && FundOk(setup.fund) && setup.shift.script == runner.script
    modifies s, runner
    ensures var start := Point(old(s.View()), old(runner.failCount));
            && (ok ==> |legs| == |RunningRuns(start.db)| && Point(s.View(), runner.failCount) == EndOf(start, legs))
            && (ok ==> Tour(start, RunningRuns(start.db), legs, setup))
            && (!ok ==> TourRaises(start, RunningRuns(start.db), legs, last, setup))
  {
    var ids := FindByStatus(s, RunStatus.Running);
    ghost var start := Point(s.View(), runner.failCount);
    legs, last := [], Idle(start, setup);
    for i := 0 to |ids|
      invariant |legs| == i && Tour(start, ids, legs, setup) && Point(s.View(), runner.failCount) == EndOf(start, legs)
    {
      ghost var more;
      ok, more, last := TakeTurn(s, ids, runner, setup, start, i, legs);
      if !ok {
        return;
      }
      legs := more;
    }
    ok := true;
  }

  // ---- a tick is a path of protocol steps, none of them a cancellation

  ghost predicate Uncancelled(steps: seq<Step>) {
    forall i | 0 <= i < |steps| :: !steps[i].Cancelling?
  }

  lemma PromotionsPath(db: Db, ids: seq<RunId>, n: nat, houses: set<House>) returns (p: Trace)
    requires n <= |ids| && PromoteEach(db, ids, n, houses).Some?
    ensures Reaches(p, db, PromoteEach(db, ids, n, houses).value) && Uncancelled(p.steps)
  {
    if n == 0 {
      return Still(db);
    }
    var init := PromotionsPath(db, ids, n - 1, houses);
    var mid := PromoteEach(db, ids, n - 1, houses).value;
    var after := PromoteEach(db, ids, n, houses).value;
    PromotionTaken(mid, ids[n - 1], houses, after);
    ThenReaches(init, db, mid, Promoting(ids[n - 1], houses), after);
    p := Then(init, Promoting(ids[n - 1], houses), after);
  }

  lemma PromotionTaken(db: Db, rid: RunId, houses: set<House>, after: Db)
    requires Promote(db, rid, houses).Some? && Promote(db, rid, houses).value.db == after
    ensures Next(db, Promoting(rid, houses), after)
  {
  }

  lemma PassTaken(db: Db, rid: RunId, pass: Pass, setup: Setup, after: Db)
    requires rid < |db.runs| && PassFor(db, rid, pass, setup) && FundOk(setup.fund)
        && Advance(db, rid, pass) == Some(after)
    ensures Next(db, Advancing(rid, pass), after)
  {
  }

  lemma LegPath(leg: Leg, rid: RunId, setup: Setup) returns (p: Trace)
    requires LegOk(leg, rid, setup) && FundOk(setup.fund)
    ensures Reaches(p, leg.before.db, leg.after.db) && Uncancelled(p.steps)
  {
    PassTaken(leg.at, rid, leg.pass, setup, leg.after.db);
    DrainReaches(leg.before.db, leg.at, leg.drain, setup.shift, leg.before.fails);
    ThenReaches(leg.drain, leg.before.db, leg.at, Advancing(rid, leg.pass), leg.after.db);
    DrainIsUncancelled(leg.before.db, leg.at, leg.drain, setup.shift, leg.before.fails);
    p := Then(leg.drain, Advancing(rid, leg.pass), leg.after.db);
  }

  lemma DrainIsUncancelled(from: Db, at: Db, drain: Trace, shift: Shift, fails: nat)
    requires Drained(from, at, drain, shift, fails)
    ensures Uncancelled(drain.steps)
  {
    forall i | 0 <= i < |drain.steps| ensures !drain.steps[i].Cancelling? {
      DrainSteps(from, at, drain, shift, fails, i);
    }
  }

  lemma LegAt(from: Point, ids: seq<RunId>, legs: seq<Leg>, setup: Setup, i: nat)
    requires Tour(from, ids, legs, setup) && i < |legs|
    ensures LegOk(legs[i], ids[i], setup) && legs[i].before == if i == 0 then from else legs[i - 1].after
  {
    assert legs[i].before == EndOf(from, legs[..i]);
  }

  // Up to where the n-th turn begins.
  lemma TourPath(from: Point, ids: seq<RunId>, legs: seq<Leg>, setup: Setup, n: nat) returns (p: Trace)
    requires Tour(from, ids, legs, setup) && FundOk(setup.fund) && n <= |legs|
    ensures Reaches(p, from.db, (if n == 0 then from else legs[n - 1].after).db) && Uncancelled(p.steps)
  {
    p := Still(from.db);
    var i := 0;
    while i < n
      invariant i <= n && Reaches(p, from.db, (if i == 0 then from else legs[i - 1].after).db) && Uncancelled(p.steps)
    {
      LegAt(from, ids, legs, setup, i);
      var leg := LegPath(legs[i], ids[i], setup);
      JoinReaches(p, leg, from.db, legs[i].before.db, legs[i].after.db);
      p := Join(p, leg);
      i := i + 1;
    }
  }

  lemma TickPath(from: Point, to: Point, legs: seq<Leg>, setup: Setup) returns (p: Trace)
    requires Ticked(from, to, legs, setup) && FundOk(setup.fund)
    ensures Reaches(p, from.db, to.db) && Uncancelled(p.steps)
  {
    var mid := PromoteQueued(from.db, setup.houses).value;
    var first := PromotionsPath(from.db, QueuedRuns(from.db), |QueuedRuns(from.db)|, setup.houses);
    var rest := TourPath(Point(mid, from.fails), RunningRuns(mid), legs, setup, |legs|);
    JoinReaches(first, rest, from.db, mid, to.db);
    p := Join(first, rest);
  }
}
