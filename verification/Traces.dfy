// Whole runs of the system: every interleaving of workers, reaper, orchestrator passes
// and PM actions, as a sequence of states joined by steps.
module Traces {
  import opened Domain
  import opened Protocol
  import opened Invariants
  import opened Preservation
  import Lifecycle
  import Advancing

  lemma StartOk()
    ensures Inv(EMPTY)
  {
  }

  lemma QueueStepKeeps(db: Db, step: Step, after: Db)
    requires Inv(db) && Next(db, step, after)
    requires step.Claiming? || step.Beating? || step.Completing? || step.Failing? || step.Reaping?
    ensures Inv(after) && Forward(db, after)
  {
    match step
    case Claiming(rid, k, worker, lease, filter) => ClaimKeeps(db, rid, k, worker, lease, filter);
    case Beating(rid, k, worker, lease) => HeartbeatKeeps(db, rid, k, worker, lease, after);
    case Completing(rid, k, cost, result) => CompleteKeeps(db, rid, k, cost, result, after);
    case Failing(rid, k, cost, retryable, kill, p, factor) => FailKeeps(db, rid, k, cost, retryable, kill, p, factor,
        after);
    case Reaping(rid, k, cutoff, p, factor) => ReapKeeps(db, rid, k, p, factor);
  }

  lemma CreatingKeeps(db: Db, step: Step, after: Db)
    requires Inv(db) && step.Creating? && Next(db, step, after)
    ensures Inv(after) && Forward(db, after)
  {
    Lifecycle.CreateKeeps(db, step.fund, step.req, after);
  }

  lemma PromotingKeeps(db: Db, step: Step, after: Db)
    requires Inv(db) && step.Promoting? && Next(db, step, after)
    ensures Inv(after) && Forward(db, after)
  {
    Lifecycle.PromoteKeeps(db, step.rid, step.houses, Promote(db, step.rid, step.houses).value);
  }

  lemma AdvancingKeeps(db: Db, step: Step, after: Db)
    requires Inv(db) && step.Advancing? && Next(db, step, after)
    ensures Inv(after) && Forward(db, after)
  {
    Advancing.AdvanceKeeps(db, step.rid, step.pass, after);
  }

  lemma CancellingKeeps(db: Db, step: Step, after: Db)
    requires Inv(db) && step.Cancelling? && Next(db, step, after)
    ensures Inv(after) && Forward(db, after)
  {
    CancelKeeps(db, step.rid, after);
  }

  lemma CancelKeeps(db: Db, rid: RunId, after: Db)
    requires Inv(db) && Finish(db, rid, Cancelled) == Some(after)
    ensures Inv(after) && Forward(db, after)
  {
    Lifecycle.FinishMeaning(db, rid, Cancelled);
    Lifecycle.EndedRunOk(db.runs[rid], Cancelled);
    Lifecycle.FinishKeeps(db, rid, Cancelled, after);
  }

  lemma CoverageStepKeeps(db: Db, step: Step, after: Db)
    requires Inv(db) && Next(db, step, after)
    requires step.Proposing? || step.Deciding? || step.Steering? || step.Leading?
    ensures Inv(after) && Forward(db, after)
  {
    match step
    case Proposing => ProposingKeeps(db);
    case Deciding(c, action, gateRun) =>
      Lifecycle.DecideExact(db, c, action, gateRun);
      Lifecycle.DecidedKeeps(db, c, action, gateRun.value);
    case Steering(c, action, force, note, hasPosition) => SteerKeeps(db, c, action, force, note, hasPosition, after);
    case Leading(c, house, flags) => LeadKeeps(db, c, house, flags, after);
  }

  lemma AnsweringKeeps(db: Db, step: Step, after: Db)
    requires Inv(db) && step.Answering? && Next(db, step, after)
    ensures Inv(after) && Forward(db, after)
  {
    AnswerKeeps(db, step.rid, step.g, step.answer, step.key, after);
  }

  lemma OtherStepKeeps(db: Db, step: Step, after: Db)
    requires Inv(db) && Next(db, step, after)
    requires step.Editing? || step.Waiting?
    ensures Inv(after) && Forward(db, after)
  {
    match step
    case Editing(id, fields) => EditKeeps(db, id, fields);
    case Waiting(until) => WaitKeeps(db, until);
  }

  // Every step of the protocol keeps the invariants and only moves rows forward.
  lemma NextKeeps(db: Db, step: Step, after: Db)
    requires Inv(db) && Next(db, step, after)
    ensures Inv(after) && Forward(db, after)
  {
    if step.Claiming? || step.Beating? || step.Completing? || step.Failing? || step.Reaping? {
      QueueStepKeeps(db, step, after);
    } else if step.Creating? {
      CreatingKeeps(db, step, after);
    } else if step.Promoting? {
      PromotingKeeps(db, step, after);
    } else if step.Advancing? {
      AdvancingKeeps(db, step, after);
    } else if step.Cancelling? {
      CancellingKeeps(db, step, after);
    } else if step.Proposing? || step.Deciding? || step.Steering? || step.Leading? {
      CoverageStepKeeps(db, step, after);
    } else if step.Answering? {
      AnsweringKeeps(db, step, after);
    } else {
      OtherStepKeeps(db, step, after);
    }
  }

  datatype Trace = Trace(states: seq<Db>, steps: seq<Step>)

  ghost predicate StepAt(tr: Trace, i: nat)
    requires |tr.states| == |tr.steps| + 1 && i < |tr.steps|
  {
    Next(tr.states[i], tr.steps[i], tr.states[i + 1])
  }

  ghost predicate Valid(tr: Trace) {
    && |tr.states| == |tr.steps| + 1
    && tr.states[0] == EMPTY
    && forall i: nat | i < |tr.steps| :: StepAt(tr, i)
  }

  lemma StepTaken(tr: Trace, i: nat)
    requires Valid(tr) && i < |tr.steps|
    ensures Next(tr.states[i], tr.steps[i], tr.states[i + 1])
  {
    assert StepAt(tr, i);
  }

  lemma {:induction false} InvAlways(tr: Trace, i: nat)
    requires Valid(tr) && i < |tr.states|
    ensures Inv(tr.states[i])
  {
    if i == 0 {
      StartOk();
    } else {
      InvAlways(tr, i - 1);
      StepTaken(tr, i - 1);
      NextKeeps(tr.states[i - 1], tr.steps[i - 1], tr.states[i]);
    }
  }

  lemma StepForward(tr: Trace, i: nat)
    requires Valid(tr) && i < |tr.steps|
    ensures Forward(tr.states[i], tr.states[i + 1])
  {
    InvAlways(tr, i);
    StepTaken(tr, i);
    NextKeeps(tr.states[i], tr.steps[i], tr.states[i + 1]);
  }

  lemma {:induction false} ForwardAlways(tr: Trace, i: nat, j: nat)
    requires Valid(tr) && i <= j < |tr.states|
    ensures Forward(tr.states[i], tr.states[j])
  {
    if i == j {
      ForwardReflexive(tr.states[i]);
    } else {
      ForwardAlways(tr, i, j - 1);
      StepForward(tr, j - 1);
      ForwardTransitive(tr.states[i], tr.states[j - 1], tr.states[j]);
    }
  }

  // ---- from any state on

  ghost predicate Path(p: Trace, db: Db) {
    && |p.states| == |p.steps| + 1
    && p.states[0] == db
    && forall i: nat | i < |p.steps| :: StepAt(p, i)
  }

  // A path that starts in one state and ends in the other.
  ghost predicate Reaches(p: Trace, from: Db, to: Db) {
    Path(p, from) && p.states[|p.steps|] == to
  }

  ghost function Still(db: Db): Trace {
    Trace([db], [])
  }

  ghost function Then(p: Trace, step: Step, after: Db): Trace {
    Trace(p.states + [after], p.steps + [step])
  }

  lemma ThenReaches(p: Trace, from: Db, mid: Db, step: Step, after: Db)
    requires Reaches(p, from, mid) && Next(mid, step, after)
    ensures Reaches(Then(p, step, after), from, after)
  {
    var q := Then(p, step, after);
    forall i: nat | i < |q.steps| ensures StepAt(q, i) {
      if i < |p.steps| {
        assert StepAt(p, i);
      }
    }
  }

  lemma {:induction false} PathKeeps(p: Trace, db: Db, i: nat)
    requires Inv(db) && Path(p, db) && i < |p.states|
    ensures Inv(p.states[i]) && Forward(db, p.states[i])
  {
    if i == 0 {
      ForwardReflexive(db);
    } else {
      PathKeeps(p, db, i - 1);
      assert StepAt(p, i - 1);
      NextKeeps(p.states[i - 1], p.steps[i - 1], p.states[i]);
      ForwardTransitive(db, p.states[i - 1], p.states[i]);
    }
  }

  // Everything a path reaches from a good state is a good state further on.
  lemma ReachesKeeps(p: Trace, from: Db, to: Db)
    requires Inv(from) && Reaches(p, from, to)
    ensures Inv(to) && Forward(from, to)
  {
    PathKeeps(p, from, |p.steps|);
  }

  ghost function Join(p: Trace, q: Trace): Trace
    requires |q.states| >= 1
  {
    Trace(p.states + q.states[1..], p.steps + q.steps)
  }

  lemma JoinReaches(p: Trace, q: Trace, from: Db, mid: Db, to: Db)
    requires Reaches(p, from, mid) && Reaches(q, mid, to)
    ensures Reaches(Join(p, q), from, to)
  {
    var j := Join(p, q);
    var n := |p.steps|;
    forall i: nat | i < |j.steps| ensures StepAt(j, i) {
      if i < n {
        assert StepAt(p, i);
      } else {
        assert StepAt(q, i - n);
        assert j.states[i] == q.states[i - n];
      }
    }
  }
}
