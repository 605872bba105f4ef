// A worker that drains the queue: claim, then complete or fail, until nothing is left to
// claim (tests/fakes/runner.py). Retry budgets are what makes it stop.
module Worker {
  import opened Domain
  import opened Protocol
  import opened Invariants
  import opened Sources
  import opened BoundedWork
  import opened Traces
  import opened Store
  import Q = Queue
  import Backoff
  import QueueStore

  const DEFAULT_TARGET :=
    PredictionIn(TargetPrice, Some(20270101), Some(2900.0), Some("JPY"), None, None, None, Some(0.6), None, None)

  function DefaultResult(role: Role): StageResult {
    if role.Author? then Result([DEFAULT_TARGET]) else Result([])
  }

  // What a runner is told to do with each role.
  datatype Script = Script(
    results: map<Role, StageResult>,
    failRole: Option<Role>,
    failTimes: nat,
    hangRoles: set<Role>,
    cost: real,
    backoff: Backoff.Policy)
  {
    // An empty configured result falls back to the default.
    function ResultFor(role: Role): StageResult {
      if role in results && results[role].Result? then results[role] else DefaultResult(role)
    }
  }

  // A script, and who follows it with which lease and which random factor.
  datatype Shift = Shift(script: Script, worker: Domain.Worker, lease: real, factor: real)

  class Runner {
    const script: Script
    var failCount: nat
    var claimed: seq<QueueStore.Claim>

    constructor (script: Script)
      ensures this.script == script && failCount == 0 && claimed == []
    {
      this.script, failCount, claimed := script, 0, [];
    }

    predicate Fails(role: Role)
      reads this
    {
      script.failRole == Some(role) && failCount < script.failTimes
    }
  }

  const ANY := Q.Filter([], [])

  // The step that ends the attempt claimed at c.
  predicate FinishOf(step: Step, c: QueueStore.Claim) {
    (step.Completing? || step.Failing?) && step.rid == c.rid && step.k == c.k
  }

  // The stages that were claimed and at once completed or failed, in order.
  function Rounds(steps: seq<Step>): seq<QueueStore.Claim> {
    var n := |steps|;
    if n < 2 then []
    else
      Rounds(steps[..n - 1])
      + if steps[n - 2].Claiming? && FinishOf(steps[n - 1], QueueStore.Claim(steps[n - 2].rid, steps[n - 2].k))
        then [QueueStore.Claim(steps[n - 2].rid, steps[n - 2].k)] else []
  }

  lemma RoundsMore(steps: seq<Step>, claim: Step)
    requires claim.Claiming?
    ensures Rounds(steps + [claim]) == Rounds(steps)
    ensures forall finish | FinishOf(finish, QueueStore.Claim(claim.rid, claim.k)) ::
              Rounds(steps + [claim] + [finish]) == Rounds(steps) + [QueueStore.Claim(claim.rid, claim.k)]
  {
    assert (steps + [claim])[..|steps|] == steps;
    assert |steps| < 1 ==> Rounds(steps) == [];
    forall finish | FinishOf(finish, QueueStore.Claim(claim.rid, claim.k))
      ensures Rounds(steps + [claim] + [finish]) == Rounds(steps) + [QueueStore.Claim(claim.rid, claim.k)]
    {
      assert (steps + [claim] + [finish])[..|steps| + 1] == steps + [claim];
    }
  }

  predicate DrainStep(step: Step) {
    step.Claiming? || step.Completing? || step.Failing?
  }

  function Failures(steps: seq<Step>): nat {
    if steps == [] then 0 else Failures(steps[..|steps| - 1]) + if steps[|steps| - 1].Failing? then 1 else 0
  }

  lemma FailuresMore(steps: seq<Step>, step: Step)
    ensures Failures(steps + [step]) == Failures(steps) + if step.Failing? then 1 else 0
  {
    assert (steps + [step])[..|steps|] == steps;
  }

  function ClaimStep(c: QueueStore.Claim, shift: Shift): Step {
    Claiming(c.rid, c.k, shift.worker, shift.lease, ANY)
  }

  // What the shift does with a stage it has claimed, after so many failures.
  function FinishStep(c: QueueStore.Claim, role: Role, shift: Shift, fails: nat): Step {
    var script := shift.script;
    if script.failRole == Some(role) && fails < script.failTimes
    then Failing(c.rid, c.k, script.cost, true, None, script.backoff, shift.factor)
    else Completing(c.rid, c.k, script.cost, script.ResultFor(role))
  }

  // The step the shift takes next: after whole rounds a claim, after a claim the end of
  // that very attempt, unless the stage's role hangs.
  ghost predicate Scripted(db: Db, prior: seq<Step>, step: Step, shift: Shift, fails: nat) {
    if Whole(prior) then step.Claiming? && step == ClaimStep(QueueStore.Claim(step.rid, step.k), shift)
    else
      var last := prior[|prior| - 1];
      && last.Claiming? && AtStage(db, last.rid, last.k)
      && var role := StageAt(db, last.rid, last.k).role;
         && role !in shift.script.hangRoles
         && step == FinishStep(QueueStore.Claim(last.rid, last.k), role, shift, fails + Failures(prior))
  }

  lemma ScriptedIsDrain(db: Db, prior: seq<Step>, step: Step, shift: Shift, fails: nat)
    requires Scripted(db, prior, step, shift, fails)
    ensures DrainStep(step)
  {
  }

  // ---- what draining leaves alone

  lemma {:induction false} AllowanceByStage(stages: seq<Stage>, after: seq<Stage>)
    requires |stages| == |after| && forall k | 0 <= k < |stages| :: after[k].maxAttempts == stages[k].maxAttempts
    ensures Q.AllowanceOf(after) == Q.AllowanceOf(stages)
  {
    if stages != [] {
      AllowanceByStage(stages[..|stages| - 1], after[..|after| - 1]);
    }
  }

  lemma {:induction false} AllowanceByRun(runs: seq<Run>, after: seq<Run>)
    requires |runs| == |after| && forall q | 0 <= q < |runs| ::
        Q.AllowanceOf(after[q].stages) == Q.AllowanceOf(runs[q].stages)
    ensures TotalAllowance(after) == TotalAllowance(runs)
  {
    if runs != [] {
      AllowanceByRun(runs[..|runs| - 1], after[..|after| - 1]);
    }
  }

  lemma QueueAllowance(db: Db, step: Step, after: Db)
    requires Inv(db) && Next(db, step, after) && QueueStep(step)
    ensures TotalAllowance(after.runs) == TotalAllowance(db.runs)
  {
    NextKeeps(db, step, after);
    QueueStandings(db, step, after);
    forall q | 0 <= q < |db.runs| ensures Q.AllowanceOf(after.runs[q].stages) == Q.AllowanceOf(db.runs[q].stages) {
      QueueSameShape(db, step, after, q);
      RunMaxAttempts(db.runs[q], after.runs[q]);
      AllowanceByStage(db.runs[q].stages, after.runs[q].stages);
    }
    AllowanceByRun(db.runs, after.runs);
  }

  lemma RunMaxAttempts(r: Run, t: Run)
    requires RunEvolves(r, t)
    ensures |r.stages| <= |t.stages|
        && forall k | 0 <= k < |r.stages| :: t.stages[k].maxAttempts == r.stages[k].maxAttempts
  {
    forall k | 0 <= k < |r.stages| ensures t.stages[k].maxAttempts == r.stages[k].maxAttempts {
      assert Q.StageEvolves(r.stages[k], t.stages[k]);
    }
  }

  // Budget not yet used up anywhere.
  ghost function Remaining(db: Db): int {
    TotalAllowance(db.runs) - TotalSpent(db.runs)
  }

  // One more drain step: still a good state, same standings, at least one unit less.
  lemma DrainedOnce(db: Db, step: Step, after: Db)
    requires Inv(db) && Next(db, step, after) && DrainStep(step)
    ensures Inv(after) && StagesOnly(db, after)
    ensures 0 <= Remaining(after) < Remaining(db)
  {
    NextKeeps(db, step, after);
    QueueStandings(db, step, after);
    QueueAllowance(db, step, after);
    StepSpends(db, step, after);
    TotalSpentWithin(after.runs);
  }

  lemma StagesOnlyTransitive(a: Db, b: Db, c: Db)
    requires StagesOnly(a, b) && StagesOnly(b, c)
    ensures StagesOnly(a, c)
  {
    forall q | 0 <= q < |a.runs| ensures SameStanding(a.runs[q], c.runs[q]) {
      assert SameStanding(a.runs[q], b.runs[q]) && SameStanding(b.runs[q], c.runs[q]);
    }
  }

  lemma ClaimedIsRunning(db: Db, rid: RunId, k: nat, worker: Domain.Worker, lease: real, f: Q.Filter, after: Db)
    requires Next(db, Claiming(rid, k, worker, lease, f), after)
    ensures AtStage(after, rid, k) && StageAt(after, rid, k).status.Running?
  {
  }

  // ---- the loop

  ghost function Last(p: Trace): Db
    requires |p.states| > 0
  {
    p.states[|p.states| - 1]
  }

  ghost function Init(p: Trace): Trace
    requires |p.steps| > 0 && |p.states| == |p.steps| + 1
  {
    Trace(p.states[..|p.steps|], p.steps[..|p.steps| - 1])
  }

  // How far a drain has come that began after so many failures: every step so far was the
  // next one the shift takes.
  ghost predicate Drained(from: Db, to: Db, path: Trace, shift: Shift, fails: nat)
    decreases |path.steps|
  {
    && |path.states| == |path.steps| + 1 && Last(path) == to
    && if path.steps == [] then to == from
       else
         var init := Init(path);
         var step := path.steps[|path.steps| - 1];
         && Drained(from, Last(init), init, shift, fails)
         && Next(Last(init), step, to) && Scripted(Last(init), init.steps, step, shift, fails)
  }

  lemma DrainOn(from: Db, mid: Db, path: Trace, step: Step, after: Db, shift: Shift, fails: nat)
    requires Drained(from, mid, path, shift, fails) && Next(mid, step, after)
    requires Scripted(mid, path.steps, step, shift, fails)
    ensures Drained(from, after, Then(path, step, after), shift, fails)
  {
    var more := Then(path, step, after);
    assert more.states[..|more.steps|] == path.states && more.steps[..|more.steps| - 1] == path.steps;
    assert Init(more) == path;
  }

  lemma InitThen(path: Trace)
    requires path.steps != [] && |path.states| == |path.steps| + 1
    ensures path == Then(Init(path), path.steps[|path.steps| - 1], Last(path))
  {
  }

  lemma {:induction false} DrainReaches(from: Db, to: Db, path: Trace, shift: Shift, fails: nat)
    requires Drained(from, to, path, shift, fails)
    ensures Reaches(path, from, to)
    decreases |path.steps|
  {
    if path.steps != [] {
      var init := Init(path);
      var step := path.steps[|path.steps| - 1];
      DrainReaches(from, Last(init), init, shift, fails);
      ThenReaches(init, from, Last(init), step, to);
      InitThen(path);
    } else {
      assert path == Still(from);
    }
  }

  lemma {:induction false} DrainSteps(from: Db, to: Db, path: Trace, shift: Shift, fails: nat, i: nat)
    requires Drained(from, to, path, shift, fails) && i < |path.steps|
    ensures DrainStep(path.steps[i])
    decreases |path.steps|
  {
    var init := Init(path);
    if i < |path.steps| - 1 {
      DrainSteps(from, Last(init), init, shift, fails, i);
    } else {
      ScriptedIsDrain(Last(init), init.steps, path.steps[i], shift, fails);
    }
  }

  // What holds of a drain that began in a good state, and what it has used up.
  ghost predicate Stands(from: Db, to: Db, steps: nat) {
    Inv(to) && StagesOnly(from, to) && 0 <= Remaining(to) <= Remaining(from) - steps
  }

  lemma StandsOn(from: Db, mid: Db, n: nat, step: Step, after: Db)
    requires Stands(from, mid, n) && Next(mid, step, after) && DrainStep(step)
    ensures Stands(from, after, n + 1)
  {
    DrainedOnce(mid, step, after);
    StagesOnlyTransitive(from, mid, after);
  }

  lemma {:induction false} DrainStands(from: Db, to: Db, path: Trace, shift: Shift, fails: nat)
    requires Inv(from) && Drained(from, to, path, shift, fails)
    ensures Stands(from, to, |path.steps|)
    decreases |path.steps|
  {
    if path.steps == [] {
      TotalSpentWithin(from.runs);
    } else {
      var init := Init(path);
      var step := path.steps[|path.steps| - 1];
      DrainStands(from, Last(init), init, shift, fails);
      ScriptedIsDrain(Last(init), init.steps, step, shift, fails);
      StandsOn(from, Last(init), |init.steps|, step, to);
    }
  }

  ghost predicate NothingToClaim(db: Db) {
    forall r: RunId, k: nat :: !Q.Eligible(db.runs, r, k, db.now, ANY)
  }

  // The step is what the shift does, after so many failures, with the stage claimed at c.
  ghost predicate Ends(db: Db, c: QueueStore.Claim, step: Step, shift: Shift, fails: nat) {
    AtStage(db, c.rid, c.k) && step == FinishStep(c, StageAt(db, c.rid, c.k).role, shift, fails)
  }

  // Finish the claimed stage as configured.
  method Process(
    s: Session, runner: Runner, c: QueueStore.Claim, shift: Shift, ghost fails: nat)
    returns (ghost step: Step)
    requires AtStage(s.View(), c.rid, c.k) && StageAt(s.View(), c.rid, c.k).status.Running?
    requires shift.script == runner.script && runner.failCount == fails
    modifies s, runner
    ensures Next(old(s.View()), step, s.View())
    ensures Ends(old(s.View()), c, step, shift, fails)
    ensures runner.failCount == fails + if step.Failing? then 1 else 0
    ensures runner.claimed == old(runner.claimed) + [c]
  {
    var role := s.runs[c.rid].stages[c.k].role;
    var script := runner.script;
    runner.claimed := runner.claimed + [c];
    if runner.Fails(role) {
      runner.failCount := runner.failCount + 1;
      step := Failing(c.rid, c.k, script.cost, true, None, script.backoff, shift.factor);
      QueueStore.FailTaken(s.View(), c.rid, c.k, script.cost, true, None, script.backoff, shift.factor);
      var ok := QueueStore.FailStage(s, c.rid, c.k, script.cost, true, None, script.backoff, shift.factor);
    } else {
      step := Completing(c.rid, c.k, script.cost, script.ResultFor(role));
      var ok := QueueStore.CompleteStage(s, c.rid, c.k, script.cost, script.ResultFor(role));
    }
  }

  datatype Outcome = Empty | Hung | Finished

  ghost predicate HangsAt(db: Db, claim: Step, hangRoles: set<Role>) {
    && claim.Claiming? && AtStage(db, claim.rid, claim.k)
    && StageAt(db, claim.rid, claim.k).role in hangRoles && StageAt(db, claim.rid, claim.k).status.Running?
  }

  // The path's new steps: none, a claim left running, or a claim and the end of its attempt.
  ghost predicate RoundDone(
    steps: seq<Step>, after: seq<Step>, claimed: seq<QueueStore.Claim>, now: seq<QueueStore.Claim>, o: Outcome)
  {
    match o
    case Empty => after == steps && now == claimed
    case Hung => |after| == |steps| + 1 && Rounds(after) == Rounds(steps) && now == claimed
    case Finished => |after| == |steps| + 2 && exists c :: Rounds(after) == Rounds(steps) + [c] && now == claimed + [c]
  }

  lemma RoundCounts(start: seq<QueueStore.Claim>, steps: seq<Step>, after: seq<Step>,
                    claimed: seq<QueueStore.Claim>, now: seq<QueueStore.Claim>, o: Outcome)
    requires claimed == start + Rounds(steps) && RoundDone(steps, after, claimed, now, o)
    ensures now == start + Rounds(after)
    ensures |Rounds(after)| == |Rounds(steps)| + if o.Finished? then 1 else 0
  {
  }

  // After whole rounds nothing is left to claim; otherwise the last claim was left hanging.
  ghost predicate Exhausted(db: Db, steps: seq<Step>, shift: Shift) {
    if Whole(steps) then NothingToClaim(db) else HangsAt(db, steps[|steps| - 1], shift.script.hangRoles)
  }

  predicate Whole(steps: seq<Step>) {
    |steps| % 2 == 0
  }

  lemma ClaimScripted(db: Db, prior: seq<Step>, c: QueueStore.Claim, shift: Shift, fails: nat)
    requires Whole(prior)
    ensures Scripted(db, prior, ClaimStep(c, shift), shift, fails) && !Whole(prior + [ClaimStep(c, shift)])
  {
  }

  lemma FinishScripted(
    mid: Db, steps: seq<Step>, prior: seq<Step>, c: QueueStore.Claim, finish: Step, shift: Shift, fails: nat,
        total: nat)
    requires Whole(prior) && steps == prior + [ClaimStep(c, shift)] && total == fails + Failures(prior)
    requires Ends(mid, c, finish, shift, total) && StageAt(mid, c.rid, c.k).role !in shift.script.hangRoles
    ensures Scripted(mid, steps, finish, shift, fails) && FinishOf(finish, c)
  {
    FailuresMore(prior, ClaimStep(c, shift));
  }

  // The claim is made, and left running.
  lemma ClaimDrained(from: Db, before: Db, path: Trace, c: QueueStore.Claim, after: Db, shift: Shift, fails: nat)
    requires Drained(from, before, path, shift, fails) && Whole(path.steps)
    requires Next(before, ClaimStep(c, shift), after)
    ensures Drained(from, after, Then(path, ClaimStep(c, shift), after), shift, fails)
  {
    ClaimScripted(before, path.steps, c, shift, fails);
    DrainOn(from, before, path, ClaimStep(c, shift), after, shift, fails);
  }

  // What a claim adds to the rounds and the failures, and the end of its attempt.
  lemma ClaimAdds(steps: seq<Step>, c: QueueStore.Claim, shift: Shift)
    ensures Rounds(steps + [ClaimStep(c, shift)]) == Rounds(steps)
    ensures Failures(steps + [ClaimStep(c, shift)]) == Failures(steps)
  {
    RoundsMore(steps, ClaimStep(c, shift));
    FailuresMore(steps, ClaimStep(c, shift));
  }

  lemma RoundAdds(steps: seq<Step>, c: QueueStore.Claim, finish: Step, shift: Shift)
    requires FinishOf(finish, c)
    ensures Rounds(steps + [ClaimStep(c, shift)] + [finish]) == Rounds(steps) + [c]
    ensures Failures(steps + [ClaimStep(c, shift)] + [finish]) == Failures(steps) + if finish.Failing? then 1 else 0
  {
    RoundsMore(steps, ClaimStep(c, shift));
    ClaimAdds(steps, c, shift);
    FailuresMore(steps + [ClaimStep(c, shift)], finish);
  }

  // A claim left hanging ends the drain.
  lemma HangEnds(db: Db, prior: seq<Step>, c: QueueStore.Claim, claimed: seq<QueueStore.Claim>, shift: Shift)
    requires Whole(prior) && HangsAt(db, ClaimStep(c, shift), shift.script.hangRoles)
    ensures Exhausted(db, prior + [ClaimStep(c, shift)], shift)
    ensures RoundDone(prior, prior + [ClaimStep(c, shift)], claimed, claimed, Hung)
    ensures Failures(prior + [ClaimStep(c, shift)]) == Failures(prior)
  {
    ClaimAdds(prior, c, shift);
  }

  // Finish the stage just claimed, after whole rounds.
  method FinishRound(
    s: Session, runner: Runner, c: QueueStore.Claim, shift: Shift, ghost from: Db, ghost path: Trace,
    ghost prior: seq<Step>, ghost fails: nat)
    returns (ghost after: Trace)
    requires shift.script == runner.script && Drained(from, s.View(), path, shift, fails)
    requires Whole(prior) && path.steps == prior + [ClaimStep(c, shift)] && runner.failCount == fails + Failures(prior)
    requires AtStage(s.View(), c.rid, c.k) && StageAt(s.View(), c.rid, c.k).status.Running?
    requires StageAt(s.View(), c.rid, c.k).role !in shift.script.hangRoles
    modifies s, runner
    ensures Drained(from, s.View(), after, shift, fails) && runner.failCount == fails + Failures(after.steps)
    ensures RoundDone(prior, after.steps, old(runner.claimed), runner.claimed, Finished)
  {
    ghost var mid := s.View();
    ghost var total := fails + Failures(prior);
    ghost var finish := Process(s, runner, c, shift, total);
    FinishScripted(mid, path.steps, prior, c, finish, shift, fails, total);
    DrainOn(from, mid, path, finish, s.View(), shift, fails);
    RoundAdds(prior, c, finish, shift);
    after := Then(path, finish, s.View());
  }

  // Make the next claim of the drain, if there is one to make.
  method ClaimNext(s: Session, shift: Shift, ghost from: Db, ghost path: Trace, ghost fails: nat)
    returns (claim: Option<QueueStore.Claim>)
    requires Drained(from, s.View(), path, shift, fails) && Whole(path.steps)
    modifies s
    ensures claim.None? ==> s.View() == old(s.View()) && NothingToClaim(s.View())
    ensures claim.Some? ==>
              && Drained(from, s.View(), Then(path, ClaimStep(claim.value, shift), s.View()), shift, fails)
              && AtStage(s.View(), claim.value.rid, claim.value.k)
              && StageAt(s.View(), claim.value.rid, claim.value.k).status.Running?
  {
    ghost var before := s.View();
    claim := QueueStore.ClaimStage(s, shift.worker, ANY, shift.lease);
    if claim.Some? {
      ClaimedIsRunning(before, claim.value.rid, claim.value.k, shift.worker, shift.lease, ANY, s.View());
      ClaimDrained(from, before, path, claim.value, s.View(), shift, fails);
    }
  }

  // Claim one stage and finish it. The drain began after so many failures.
  method Round(s: Session, runner: Runner, shift: Shift, ghost from: Db, ghost path: Trace, ghost fails: nat)
    returns (o: Outcome, ghost after: Trace)
    requires shift.script == runner.script && Drained(from, s.View(), path, shift, fails)
    requires Whole(path.steps) && runner.failCount == fails + Failures(path.steps)
    modifies s, runner
    ensures Drained(from, s.View(), after, shift, fails) && runner.failCount == fails + Failures(after.steps)
    ensures RoundDone(path.steps, after.steps, old(runner.claimed), runner.claimed, o)
    ensures o.Empty? ==> s.View() == old(s.View())
    ensures !o.Finished? ==> Exhausted(s.View(), after.steps, shift)
  {
    var claim := ClaimNext(s, shift, from, path, fails);
    if claim.None? {
      return Empty, path;
    }
    var c := claim.value;
    after := Then(path, ClaimStep(c, shift), s.View());
    if s.runs[c.rid].stages[c.k].role in shift.script.hangRoles {
      HangEnds(s.View(), path.steps, c, runner.claimed, shift);
      return Hung, after;
    }
    after := FinishRound(s, runner, c, shift, from, after, path.steps, fails);
    return Finished, after;
  }

  // How far the loop has come: n rounds done, and those stages claimed.
  ghost predicate Counted(path: Trace, n: nat, first: seq<QueueStore.Claim>, claimed: seq<QueueStore.Claim>) {
    && |path.steps| == 2 * n && Whole(path.steps)
    && |Rounds(path.steps)| == n && claimed == first + Rounds(path.steps)
  }

  lemma CountOn(
    before: Trace, path: Trace, n: nat, first: seq<QueueStore.Claim>,
    taken: seq<QueueStore.Claim>, claimed: seq<QueueStore.Claim>, o: Outcome)
    requires Counted(before, n, first, taken) && RoundDone(before.steps, path.steps, taken, claimed, o)
    ensures o.Finished? ==> Counted(path, n + 1, first, claimed)
    ensures !o.Finished? ==>
              && |path.steps| == 2 * n + (if o.Hung? then 1 else 0)
              && |Rounds(path.steps)| == n && claimed == first + Rounds(path.steps)
  {
    RoundCounts(first, before.steps, path.steps, taken, claimed, o);
  }

  // Terminates because every round uses up budget. Afterwards nothing is claimable, unless
  // the last claim was left hanging.
  method Drain(s: Session, runner: Runner, shift: Shift) returns (n: nat, ghost path: Trace)
    requires Inv(s.View()) && shift.script == runner.script
    modifies s, runner
    ensures Drained(old(s.View()), s.View(), path, shift, old(runner.failCount))
    ensures |path.steps| <= Remaining(old(s.View()))
    ensures runner.failCount == old(runner.failCount) + Failures(path.steps)
    ensures |path.steps| == 2 * n || |path.steps| == 2 * n + 1
    ensures |Rounds(path.steps)| == n && runner.claimed == old(runner.claimed) + Rounds(path.steps)
    ensures Exhausted(s.View(), path.steps, shift)
  {
    n := 0;
    path := Still(s.View());
    ghost var start, claimed, fails := s.View(), runner.claimed, runner.failCount;
    DrainStands(start, start, path, shift, fails);
    while true
      invariant Drained(start, s.View(), path, shift, fails) && Counted(path, n, claimed, runner.claimed)
      invariant runner.failCount == fails + Failures(path.steps) && |path.steps| <= Remaining(start)
      decreases Remaining(start) - |path.steps|
    {
      var o;
      ghost var before, taken := path, runner.claimed;
      o, path := Round(s, runner, shift, start, path, fails);
      DrainStands(start, s.View(), path, shift, fails);
      CountOn(before, path, n, claimed, taken, runner.claimed, o);
      if !o.Finished? {
        break;
      }
      n := n + 1;
    }
  }
}
