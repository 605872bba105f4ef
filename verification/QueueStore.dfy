// The stage queue's operations on a session (core/db/queue.py).
module QueueStore {
  import opened Domain
  import opened Protocol
  import opened Traces
  import opened Store
  import R = RunMachine
  import Q = Queue
  import Backoff

  datatype Claim = Claim(rid: RunId, k: nat)

  lemma PrecedesTransitive(r1: Run, s1: Stage, r2: Run, s2: Stage, r3: Run, s3: Stage)
    requires Q.Precedes(r1, s1, r2, s2) && Q.Precedes(r2, s2, r3, s3)
    ensures Q.Precedes(r1, s1, r3, s3)
  {
  }

  // Position (r, j) comes before position (rid, k) in table order.
  predicate Earlier(r: RunId, j: nat, rid: RunId, k: nat) {
    r < rid || (r == rid && j < k)
  }

  // The best eligible stage among those before position (rid, k).
  ghost predicate BestUpTo(runs: seq<Run>, now: Time, f: Q.Filter, best: Option<Claim>, rid: RunId, k: nat) {
    && (best.None? ==> forall r: RunId, j: nat | Earlier(r, j, rid, k) :: !Q.Eligible(runs, r, j, now, f))
    && (best.Some? ==>
          && Q.Eligible(runs, best.value.rid, best.value.k, now, f)
          && forall r: RunId, j: nat | Earlier(r, j, rid, k) && Q.Eligible(runs, r, j, now, f) ::
               !Q.Precedes(runs[r], runs[r].stages[j], runs[best.value.rid], runs[best.value.rid].stages[best.value.k]))
  }

  function Better(runs: seq<Run>, now: Time, f: Q.Filter, best: Option<Claim>, rid: RunId, k: nat): Option<Claim>
    requires rid < |runs| && k < |runs[rid].stages|
    requires best.Some? ==> Q.Eligible(runs, best.value.rid, best.value.k, now, f)
  {
    if !Q.Claimable(runs[rid], runs[rid].stages[k], now, f) then best
    else if best.None? then Some(Claim(rid, k))
    else if Q.Precedes(runs[rid], runs[rid].stages[k], runs[best.value.rid], runs[best.value.rid].stages[best.value.k])
    then Some(Claim(rid, k))
    else best
  }

  lemma BetterIsBest(runs: seq<Run>, now: Time, f: Q.Filter, best: Option<Claim>, rid: RunId, k: nat)
    requires rid < |runs| && k < |runs[rid].stages| && BestUpTo(runs, now, f, best, rid, k)
    ensures BestUpTo(runs, now, f, Better(runs, now, f, best, rid, k), rid, k + 1)
  {
    var next := Better(runs, now, f, best, rid, k);
    if best.Some? && next != best {
      var b, n := runs[best.value.rid], runs[rid];
      var bs, ns := b.stages[best.value.k], n.stages[k];
      forall r: RunId, j: nat | Earlier(r, j, rid, k + 1) && Q.Eligible(runs, r, j, now, f)
        ensures !Q.Precedes(runs[r], runs[r].stages[j], n, ns)
      {
        if Q.Precedes(runs[r], runs[r].stages[j], n, ns) {
          PrecedesTransitive(runs[r], runs[r].stages[j], n, ns, b, bs);
        }
      }
    }
  }

  // The claim query: some eligible stage that no eligible stage precedes.
  method FindClaimable(runs: seq<Run>, now: Time, f: Q.Filter) returns (best: Option<Claim>)
    ensures best.None? <==> forall r: RunId, j: nat :: !Q.Eligible(runs, r, j, now, f)
    ensures best.Some? ==> Q.IsFirst(runs, best.value.rid, best.value.k, now, f)
  {
    best := None;
    for rid := 0 to |runs|
      invariant BestUpTo(runs, now, f, best, rid, 0)
    {
      for k := 0 to |runs[rid].stages|
        invariant BestUpTo(runs, now, f, best, rid, k)
      {
        BetterIsBest(runs, now, f, best, rid, k);
        best := Better(runs, now, f, best, rid, k);
      }
    }
  }

  // Claim the first eligible stage, if there is one.
  method ClaimStage(s: Session, worker: Worker, f: Q.Filter, lease: real) returns (claim: Option<Claim>)
    modifies s
    ensures claim.None? <==> forall r: RunId, j: nat :: !Q.Eligible(old(s.runs), r, j, old(s.now), f)
    ensures claim.None? ==> s.View() == old(s.View())
    ensures claim.Some? ==>
              && Q.IsFirst(old(s.runs), claim.value.rid, claim.value.k, old(s.now), f)
              && s.View() == SetStage(old(s.View()), claim.value.rid, claim.value.k,
                                      Q.Claimed(StageAt(old(s.View()), claim.value.rid, claim.value.k), worker,
                                          old(s.now), lease))
              && Next(old(s.View()), Claiming(claim.value.rid, claim.value.k, worker, lease, f), s.View())
  {
    claim := FindClaimable(s.runs, s.now, f);
    if claim.None? {
      return;
    }
    var rid, k := claim.value.rid, claim.value.k;
    var stage := s.runs[rid].stages[k];
    stage := stage.(status := StageStatus.Running);
    stage := stage.(claimedBy := Some(worker), claimedAt := Some(s.now), leaseExpiresAt := Some(s.now + lease));
    stage := stage.(attempts := stage.attempts + 1);
    stage := stage.(rows := stage.rows + [Attempt(stage.attempts, AttemptStatus.Running, worker, 0.0, None)]);
    s.SetRun(rid, Q.WithStage(s.runs[rid], k, stage));
  }

  method Heartbeat(s: Session, rid: RunId, k: nat, worker: Worker, lease: real) returns (held: bool)
    modifies s
    ensures held <==>
              && AtStage(old(s.View()), rid, k)
              && StageAt(old(s.View()), rid, k).claimedBy == Some(worker)
              && StageAt(old(s.View()), rid, k).status.Running?
    ensures !held ==> s.View() == old(s.View())
    ensures held ==> Next(old(s.View()), Beating(rid, k, worker, lease), s.View())
    ensures held ==> StageAt(s.View(), rid, k) == StageAt(old(s.View()), rid, k).(leaseExpiresAt := Some(s.now + lease))
  {
    if rid >= |s.runs| || k >= |s.runs[rid].stages| {
      return false;
    }
    var stage := s.runs[rid].stages[k];
    if stage.claimedBy != Some(worker) || !stage.status.Running? {
      return false;
    }
    s.SetRun(rid, Q.WithStage(s.runs[rid], k, stage.(leaseExpiresAt := Some(s.now + lease))));
    return true;
  }

  // The attempt row the closing query returns, by scanning from the newest.
  method FindRunning(rows: seq<Attempt>) returns (i: Option<nat>)
    ensures i == Q.RunningRow(rows)
  {
    var n := |rows|;
    assert rows[..n] == rows;
    while n > 0
      invariant 0 <= n <= |rows| && Q.RunningRow(rows[..n]) == Q.RunningRow(rows)
    {
      assert rows[..n][..n - 1] == rows[..n - 1];
      if rows[n - 1].status.Running? {
        return Some(n - 1);
      }
      n := n - 1;
    }
    return None;
  }

  method CloseAttempt(stage: Stage, status: AttemptStatus, cost: real, kill: Option<string>) returns (closed: Stage)
    ensures closed == Q.CloseAttempt(stage, status, cost, kill)
  {
    closed := stage;
    var i := FindRunning(stage.rows);
    if i.Some? {
      var row := stage.rows[i.value];
      row := row.(status := status, cost := cost);
      if kill.Some? {
        row := row.(killReason := kill);
      }
      closed := closed.(rows := closed.rows[i.value := row]);
    }
    closed := closed.(cost := closed.cost + cost);
  }

  // The sum that the roll-up query computes.
  method SumCosts(stages: seq<Stage>) returns (total: real)
    ensures total == Q.StageCost(stages)
  {
    total := 0.0;
    for k := 0 to |stages|
      invariant total == Q.StageCost(stages[..k])
    {
      assert stages[..k + 1][..k] == stages[..k];
      total := total + stages[k].cost;
    }
    assert stages[..|stages|] == stages;
  }

  method RollUpRun(s: Session, rid: RunId)
    requires rid < |s.runs|
    modifies s
    ensures s.View() == Protocol.SetRun(old(s.View()), rid, Q.RolledUp(old(s.runs)[rid]))
  {
    var total := SumCosts(s.runs[rid].stages);
    s.SetRun(rid, s.runs[rid].(cost := total));
  }

  // False: the stage machine raised, because the stage was not running; the session is
  // then dirty and its owner rolls it back.
  method CompleteStage(s: Session, rid: RunId, k: nat, cost: real, result: StageResult) returns (ok: bool)
    requires AtStage(s.View(), rid, k)
    modifies s
    ensures ok <==> StageAt(old(s.View()), rid, k).status.Running?
    ensures ok <==> Protocol.CompleteStage(old(s.View()), rid, k, cost, result).Some?
    ensures ok ==> Next(old(s.View()), Completing(rid, k, cost, result), s.View())
  {
    var stage := s.runs[rid].stages[k];
    stage := CloseAttempt(stage, AttemptStatus.Succeeded, cost, None);
    var change := R.StageTransition(stage.status, R.Complete, stage.attempts, stage.maxAttempts);
    if change.None? {
      return false;
    }
    stage := stage.(status := change.value.to);
    stage := stage.(result := Some(result));
    stage := Q.Released(stage);
    s.SetRun(rid, Q.WithStage(s.runs[rid], k, stage));
    RollUpRun(s, rid);
    assert s.runs == old(s.runs)[rid := s.runs[rid]];
    return true;
  }

  method NextAvailableAt(now: Time, attempts: nat, p: Backoff.Policy, factor: real) returns (at: Time)
    ensures at == now + Backoff.Seconds(attempts, p, factor)
  {
    at := now + Backoff.Seconds(attempts, p, factor);
  }

  // On a running stage it never raises, and is a failing step.
  lemma FailTaken(
    db: Db, rid: RunId, k: nat, cost: real, retryable: bool, kill: Option<string>, p: Backoff.Policy, factor: real)
    requires AtStage(db, rid, k) && StageAt(db, rid, k).status.Running?
    ensures var after := Protocol.FailStage(db, rid, k, cost, retryable, kill, p, factor);
            after.Some? && Next(db, Failing(rid, k, cost, retryable, kill, p, factor), after.value)
  {
  }

  method FailStage(
    s: Session, rid: RunId, k: nat, cost: real, retryable: bool, kill: Option<string>, p: Backoff.Policy, factor: real)
    returns (ok: bool)
    requires AtStage(s.View(), rid, k)
    modifies s
    ensures ok <==> Protocol.FailStage(old(s.View()), rid, k, cost, retryable, kill, p, factor).Some?
    ensures ok ==> Some(s.View()) == Protocol.FailStage(old(s.View()), rid, k, cost, retryable, kill, p, factor)
  {
    var stage := s.runs[rid].stages[k];
    stage := CloseAttempt(stage, AttemptStatus.Failed, cost, kill);
    if retryable && stage.attempts < stage.maxAttempts {
      var change := R.StageTransition(stage.status, R.FailRetryable, stage.attempts, stage.maxAttempts);
      if change.None? {
        return false;
      }
      stage := stage.(status := change.value.to);
      if change.value.setsBackoff {
        var at := NextAvailableAt(s.now, stage.attempts, p, factor);
        stage := stage.(availableAt := at);
      } else {
        stage := stage.(availableAt := s.now);
      }
    } else {
      stage := stage.(status := StageStatus.Failed);
    }
    stage := Q.Released(stage);
    s.SetRun(rid, Q.WithStage(s.runs[rid], k, stage));
    RollUpRun(s, rid);
    assert s.runs == old(s.runs)[rid := s.runs[rid]];
    return true;
  }

  // ---- the reaper

  predicate Lapsed(db: Db, c: Claim, cutoff: Time) {
    AtStage(db, c.rid, c.k) && Q.Expired(StageAt(db, c.rid, c.k), cutoff)
  }

  // The query runs once, before anything is reaped: every expired stage, each once.
  method FindExpired(s: Session, cutoff: Time) returns (found: seq<Claim>)
    ensures forall c :: c in found <==> Lapsed(s.View(), c, cutoff)
    ensures forall i, j | 0 <= i < j < |found| :: found[i] != found[j]
  {
    found := [];
    for rid := 0 to |s.runs|
      invariant forall c :: c in found <==> c.rid < rid && Lapsed(s.View(), c, cutoff)
      invariant forall i, j | 0 <= i < j < |found| :: found[i] != found[j]
    {
      for k := 0 to |s.runs[rid].stages|
        invariant forall c :: c in found <==> Earlier(c.rid, c.k, rid, k) && Lapsed(s.View(), c, cutoff)
        invariant forall i, j | 0 <= i < j < |found| :: found[i] != found[j]
      {
        if Q.Expired(s.runs[rid].stages[k], cutoff) {
          found := found + [Claim(rid, k)];
        }
      }
    }
  }

  method ReapOne(s: Session, rid: RunId, k: nat, p: Backoff.Policy, factor: real)
    requires AtStage(s.View(), rid, k)
    modifies s
    ensures s.View() == ReapStage(old(s.View()), rid, k, p, factor)
  {
    var stage := s.runs[rid].stages[k];
    var i := FindRunning(stage.rows);
    if i.Some? {
      var row := stage.rows[i.value];
      row := row.(status := AttemptStatus.Failed, killReason := Some("lease_expired"));
      stage := stage.(rows := stage.rows[i.value := row]);
    }
    if stage.attempts < stage.maxAttempts {
      var at := NextAvailableAt(s.now, stage.attempts, p, factor);
      stage := stage.(status := StageStatus.Queued, availableAt := at);
    } else {
      stage := stage.(status := StageStatus.Failed);
    }
    s.SetRun(rid, Q.WithStage(s.runs[rid], k, Q.Released(stage)));
  }

  type Jitter = (RunId, nat) -> real

  function ReapedAt(db: Db, c: Claim, cutoff: Time, p: Backoff.Policy, jitter: Jitter): Stage
    requires AtStage(db, c.rid, c.k)
  {
    var s := StageAt(db, c.rid, c.k);
    if Q.Expired(s, cutoff) then Q.Reaped(s, Q.RetryAt(s, db.now, p, jitter(c.rid, c.k))) else s
  }

  function RunReaped(db: Db, rid: RunId, cutoff: Time, p: Backoff.Policy, jitter: Jitter): Run
    requires rid < |db.runs|
  {
    db.runs[rid].(stages := seq(|db.runs[rid].stages|, k requires 0 <= k < |db.runs[rid].stages| =>
      ReapedAt(db, Claim(rid, k), cutoff, p, jitter)))
  }

  // Exactly the expired stages are reaped, each by its own retry delay, and nothing else
  // in the database moves.
  function AllReaped(db: Db, cutoff: Time, p: Backoff.Policy, jitter: Jitter): Db {
    db.(runs := seq(|db.runs|, rid requires 0 <= rid < |db.runs| => RunReaped(db, rid, cutoff, p, jitter)))
  }

  // The first n of the found stages have been reaped.
  ghost predicate ReapedSoFar(
    before: Db, now: Db, found: seq<Claim>, n: nat, cutoff: Time, p: Backoff.Policy, jitter: Jitter)
    requires n <= |found|
  {
    && now == before.(runs := now.runs) && |now.runs| == |before.runs|
    && (forall r | 0 <= r < |before.runs| ::
          now.runs[r] == before.runs[r].(stages := now.runs[r].stages)
              && |now.runs[r].stages| == |before.runs[r].stages|)
    && forall c: Claim | AtStage(before, c.rid, c.k) ::
         StageAt(now, c.rid, c.k) == if c in found[..n] then ReapedAt(before, c, cutoff, p, jitter)
             else StageAt(before, c.rid, c.k)
  }

  lemma ReapedMore(before: Db, now: Db, found: seq<Claim>, n: nat, cutoff: Time, p: Backoff.Policy, jitter: Jitter)
    requires n < |found| && ReapedSoFar(before, now, found, n, cutoff, p, jitter)
    requires (forall i, j | 0 <= i < j < |found| :: found[i] != found[j]) && Lapsed(before, found[n], cutoff)
    ensures Lapsed(now, found[n], cutoff)
    ensures ReapedSoFar(before, ReapStage(now, found[n].rid, found[n].k, p, jitter(found[n].rid, found[n].k)), found,
        n + 1, cutoff, p, jitter)
  {
    var c := found[n];
    assert found[n] !in found[..n];
    assert found[..n + 1] == found[..n] + [c];
    assert StageAt(now, c.rid, c.k) == StageAt(before, c.rid, c.k);
    var after := ReapStage(now, c.rid, c.k, p, jitter(c.rid, c.k));
    assert StageAt(after, c.rid, c.k) == ReapedAt(before, c, cutoff, p, jitter);
    forall d: Claim | AtStage(before, d.rid, d.k) && d != c
      ensures StageAt(after, d.rid, d.k) == StageAt(now, d.rid, d.k)
    {
    }
  }

  lemma ReapedEverything(before: Db, now: Db, found: seq<Claim>, cutoff: Time, p: Backoff.Policy, jitter: Jitter)
    requires ReapedSoFar(before, now, found, |found|, cutoff, p, jitter)
    requires forall c :: c in found <==> Lapsed(before, c, cutoff)
    ensures now == AllReaped(before, cutoff, p, jitter)
  {
    assert found[..|found|] == found;
    forall r | 0 <= r < |before.runs| ensures now.runs[r] == RunReaped(before, r, cutoff, p, jitter) {
      forall k | 0 <= k < |before.runs[r].stages|
        ensures now.runs[r].stages[k] == ReapedAt(before, Claim(r, k), cutoff, p, jitter)
      {
        assert StageAt(now, r, k) == now.runs[r].stages[k];
      }
      assert now.runs[r].stages == RunReaped(before, r, cutoff, p, jitter).stages;
    }
    assert now.runs == AllReaped(before, cutoff, p, jitter).runs;
  }

  lemma ReapTaken(path: Trace, from: Db, mid: Db, c: Claim, cutoff: Time, p: Backoff.Policy, factor: real)
    requires Reaches(path, from, mid) && Lapsed(mid, c, cutoff)
    ensures var after := ReapStage(mid, c.rid, c.k, p, factor);
            Reaches(Then(path, Reaping(c.rid, c.k, cutoff, p, factor), after), from, after)
  {
    ThenReaches(path, from, mid, Reaping(c.rid, c.k, cutoff, p, factor), ReapStage(mid, c.rid, c.k, p, factor));
  }

  predicate Reaps(step: Step, c: Claim) {
    step.Reaping? && step.rid == c.rid && step.k == c.k
  }

  method ReapExpired(
    s: Session, cutoff: Time, p: Backoff.Policy, jitter: Jitter)
    returns (reaped: seq<Claim>, ghost path: Trace)
    modifies s
    ensures s.View() == AllReaped(old(s.View()), cutoff, p, jitter)
    ensures forall c :: c in reaped <==> Lapsed(old(s.View()), c, cutoff)
    ensures Reaches(path, old(s.View()), s.View())
    ensures |path.steps| == |reaped| && forall i | 0 <= i < |reaped| :: Reaps(path.steps[i], reaped[i])
  {
    var found := FindExpired(s, cutoff);
    reaped := [];
    path := Still(s.View());
    for i := 0 to |found|
      invariant reaped == found[..i] && |path.steps| == i
      invariant ReapedSoFar(old(s.View()), s.View(), found, i, cutoff, p, jitter)
      invariant Reaches(path, old(s.View()), s.View())
      invariant forall j | 0 <= j < i :: Reaps(path.steps[j], found[j])
    {
      var c := found[i];
      assert c in found;
      ReapedMore(old(s.View()), s.View(), found, i, cutoff, p, jitter);
      ReapTaken(path, old(s.View()), s.View(), c, cutoff, p, jitter(c.rid, c.k));
      ReapOne(s, c.rid, c.k, p, jitter(c.rid, c.k));
      path := Then(path, Reaping(c.rid, c.k, cutoff, p, jitter(c.rid, c.k)), s.View());
      reaped := reaped + [c];
    }
    ReapedEverything(old(s.View()), s.View(), found, cutoff, p, jitter);
    assert found[..|found|] == found;
  }
}
