// How each table-wide rule survives one kind of change: a run replaced, a lock taken or
// released, a coverage moved along its table, an event appended.
module Tables {
  import opened Domain
  import opened Protocol
  import opened Invariants
  import opened Effects
  import C = CoverageMachine
  import Q = Queue

  // ---- runs

  lemma SwapEvolvesAll(runs: seq<Run>, rid: RunId, t: Run)
    requires rid < |runs| && RunEvolves(runs[rid], t)
    ensures RunsEvolve(runs, runs[rid := t])
  {
    forall i | 0 <= i < |runs| ensures RunEvolves(runs[i], runs[rid := t][i]) {
      RunEvolvesReflexive(runs[i]);
    }
  }

  // A change of status and gates leaves everything about the stages as it was.
  lemma RestatusKeeps(r: Run, t: Run)
    requires RunOk(r) && t == r.(status := t.status, gates := t.gates) && GatesOk(t)
    ensures RunOk(t)
  {
    assert GraphOk(t) && RolesOk(t) && StagesOk(t);
    forall k | 0 <= k < |t.stages| && t.stages[k].attempts > 0 ensures Q.DependencyMet(t, t.stages[k]) {
      assert Q.DependencyMet(r, r.stages[k]);
      DependencyByPosition(r, k);
      DependencyByPosition(t, k);
    }
  }

  // ---- locks

  lemma LocksSwap(runs: seq<Run>, locks: map<CoverageId, RunId>, rid: RunId, t: Run)
    requires LocksOk(runs, locks) && rid < |runs|
    requires t.coverage == runs[rid].coverage && t.kind == runs[rid].kind
    requires RunTerminal(t.status) ==> RunTerminal(runs[rid].status)
    requires HoldsTicker(t) ==> HoldsTicker(runs[rid])
    ensures LocksOk(runs[rid := t], locks)
  {
  }

  lemma LocksTaken(runs: seq<Run>, locks: map<CoverageId, RunId>, rid: RunId, t: Run)
    requires LocksOk(runs, locks) && rid < |runs|
    requires t.coverage == runs[rid].coverage && t.kind == runs[rid].kind && Mutates(t.kind)
    requires !RunTerminal(t.status) && TakeLock(locks, t.coverage, rid)[t.coverage] == rid
    ensures LocksOk(runs[rid := t], TakeLock(locks, t.coverage, rid))
  {
  }

  lemma LocksReleased(runs: seq<Run>, locks: map<CoverageId, RunId>, rid: RunId, t: Run)
    requires LocksOk(runs, locks) && rid < |runs|
    requires t.coverage == runs[rid].coverage && t.kind == runs[rid].kind && RunTerminal(t.status)
    ensures LocksOk(runs[rid := t], ReleaseLocks(locks, rid))
  {
    var after := runs[rid := t];
    forall i | 0 <= i < |after| && HoldsTicker(after[i])
      ensures after[i].coverage in ReleaseLocks(locks, rid) && ReleaseLocks(locks, rid)[after[i].coverage] == i
    {
      assert i != rid && after[i] == runs[i];
    }
  }

  // ---- a coverage moved along its table

  lemma CoverageMoves(cov: Coverage, a: C.Action, rid: Option<RunId>)
    requires CoverageOk(cov) && C.Table(Some(cov.state), a).Some?
    requires LeadConstraint(Moved(cov, C.Table(Some(cov.state), a).value, rid))
    ensures CoverageOk(Moved(cov, C.Table(Some(cov.state), a).value, rid))
  {
    C.ChainExtends(cov.log, a, rid);
  }

  lemma CoverageStarts(cov: Coverage, rid: RunId, lead: Option<House>)
    requires CoverageOk(cov) && cov.state.Proposed?
    ensures CoverageOk(Moved(cov, C.Table(Some(C.Proposed), C.StartInitiation).value, Some(rid)).(lead := lead))
  {
    C.ChainExtends(cov.log, C.StartInitiation, Some(rid));
  }

  // One more row in one log.
  ghost predicate Grows(cov: Coverage, after: Coverage, row: C.LogRow) {
    after.log == cov.log + [row]
  }

  lemma StartedGrows(cov: Coverage, after: Coverage, row: C.LogRow, rid: RunId)
    requires Grows(cov, after, row)
    ensures Initiated(after, rid) <==> Initiated(cov, rid) || (row.cause.ByStart? && row.run == Some(rid))
  {
    if Initiated(cov, rid) {
      var i :| 0 <= i < |cov.log| && cov.log[i].cause.ByStart? && cov.log[i].run == Some(rid);
      assert after.log[i] == cov.log[i];
    }
    assert after.log[|cov.log|] == row;
  }

  lemma RefsGrow(runs: seq<Run>, coverages: seq<Coverage>, c: CoverageId, after: Coverage, row: C.LogRow)
    requires RefsOk(runs, coverages) && c < |coverages| && Grows(coverages[c], after, row)
    requires row.run.Some? ==> row.run.value < |runs|
    ensures RefsOk(runs, coverages[c := after])
  {
  }

  lemma RefsSwap(runs: seq<Run>, coverages: seq<Coverage>, rid: RunId, t: Run)
    requires RefsOk(runs, coverages) && rid < |runs| && t.coverage == runs[rid].coverage
    ensures RefsOk(runs[rid := t], coverages)
  {
  }

  lemma DecidedEvolves(runs: seq<Run>, after: seq<Run>, coverages: seq<Coverage>)
    requires DecidedOk(runs, coverages) && RunsEvolve(runs, after)
    ensures DecidedOk(after, coverages)
  {
    forall c, i | 0 <= c < |coverages| && 0 <= i < |coverages[c].log| && coverages[c].log[i].cause.ByPmDecision?
      ensures var r := coverages[c].log[i].run; r.Some? && r.value < |after| && DecisionRun(after[r.value], c)
    {
      var r := coverages[c].log[i].run.value;
      assert RunEvolves(runs[r], after[r]);
    }
  }

  lemma DecidedGrows(runs: seq<Run>, coverages: seq<Coverage>, c: CoverageId, after: Coverage, row: C.LogRow)
    requires DecidedOk(runs, coverages) && c < |coverages| && Grows(coverages[c], after, row)
    requires row.cause.ByPmDecision? ==> row.run.Some? && row.run.value < |runs| && DecisionRun(runs[row.run.value], c)
    ensures DecidedOk(runs, coverages[c := after])
  {
    var next := coverages[c := after];
    forall d, i | 0 <= d < |next| && 0 <= i < |next[d].log| && next[d].log[i].cause.ByPmDecision?
      ensures var r := next[d].log[i].run; r.Some? && r.value < |runs| && DecisionRun(runs[r.value], d)
    {
      if d != c {
        assert next[d] == coverages[d];
      } else if i < |coverages[c].log| {
        assert next[d].log[i] == coverages[c].log[i];
      }
    }
  }

  // ---- lockstep

  lemma LockstepSwap(runs: seq<Run>, coverages: seq<Coverage>, locks: map<CoverageId, RunId>, rid: RunId, t: Run)
    requires LockstepOk(runs, coverages, locks) && rid < |runs|
    requires t.coverage == runs[rid].coverage && t.kind == runs[rid].kind
    requires !RunTerminal(t.status) ==>
        !RunTerminal(runs[rid].status) && (AtDecisionGate(t) <==> AtDecisionGate(runs[rid]))
    ensures LockstepOk(runs[rid := t], coverages, locks)
  {
  }

  lemma LockstepTaken(
    runs: seq<Run>, coverages: seq<Coverage>, locks: map<CoverageId, RunId>, c: CoverageId, rid: RunId)
    requires LockstepOk(runs, coverages, locks)
    ensures LockstepOk(runs, coverages, TakeLock(locks, c, rid))
  {
  }

  lemma LockstepReleased(runs: seq<Run>, coverages: seq<Coverage>, locks: map<CoverageId, RunId>, rid: RunId)
    requires LockstepOk(runs, coverages, locks) && rid < |runs| && RunTerminal(runs[rid].status)
    ensures LockstepOk(runs, coverages, ReleaseLocks(locks, rid))
  {
    forall c, q: RunId | 0 <= c < |coverages| && q < |runs| && Initiated(coverages[c], q)
        && !RunTerminal(runs[q].status)
      ensures c in ReleaseLocks(locks, rid) && ReleaseLocks(locks, rid)[c] == q
    {
      assert locks[c] == q && q != rid;
    }
  }

  // Coverage c moves while every unfinished run that started it agrees with its new state.
  lemma LockstepMoves(
    runs: seq<Run>, coverages: seq<Coverage>, locks: map<CoverageId, RunId>, c: CoverageId, after: Coverage,
    row: C.LogRow)
    requires LockstepOk(runs, coverages, locks) && c < |coverages| && Grows(coverages[c], after, row)
    requires forall q: RunId | q < |runs| && Initiated(after, q) && !RunTerminal(runs[q].status) ::
               && runs[q].kind.Initiation? && runs[q].coverage == c && c in locks && locks[c] == q
               && InStep(runs[q], after.state)
    ensures LockstepOk(runs, coverages[c := after], locks)
  {
    var next := coverages[c := after];
    forall d, q: RunId | 0 <= d < |next| && q < |runs| && Initiated(next[d], q) && !RunTerminal(runs[q].status)
      ensures && runs[q].kind.Initiation? && runs[q].coverage == d && d in locks && locks[d] == q
              && InStep(runs[q], next[d].state)
    {
      if d != c {
        assert next[d] == coverages[d];
      }
    }
  }

  // ---- outbox

  lemma ChangesAppend(outbox: seq<Emission>, e: Emission, c: CoverageId)
    ensures Changes(outbox + [e], c) ==
            Changes(outbox, c) + (if e.kind.StateChanged? && e.coverage == c then [(e.to, e.cause, e.run)] else [])
  {
    assert (outbox + [e])[..|outbox|] == outbox;
  }

  lemma OutboxQuiet(outbox: seq<Emission>, coverages: seq<Coverage>, e: Emission)
    requires OutboxOk(outbox, coverages) && !e.kind.StateChanged? && e.coverage < |coverages|
    ensures OutboxOk(outbox + [e], coverages)
  {
    forall c | 0 <= c < |coverages| ensures Changes(outbox + [e], c) == Announced(coverages[c].log) {
      ChangesAppend(outbox, e, c);
    }
  }

  lemma OutboxLogs(outbox: seq<Emission>, coverages: seq<Coverage>, c: CoverageId, after: Coverage, row: C.LogRow)
    requires OutboxOk(outbox, coverages) && c < |coverages| && Grows(coverages[c], after, row)
    ensures OutboxOk(outbox + [Emission(C.StateChanged, c, row.run, Some(row.to), Some(row.cause))],
        coverages[c := after])
  {
    var e := Emission(C.StateChanged, c, row.run, Some(row.to), Some(row.cause));
    var next := coverages[c := after];
    forall d | 0 <= d < |next| ensures Changes(outbox + [e], d) == Announced(next[d].log) {
      ChangesAppend(outbox, e, d);
      if d == c {
        assert Announced(after.log) == Announced(coverages[c].log) + [(e.to, e.cause, e.run)];
      }
    }
  }

  lemma {:induction false} NoChangesYet(outbox: seq<Emission>, c: CoverageId)
    requires forall i | 0 <= i < |outbox| :: outbox[i].coverage != c
    ensures Changes(outbox, c) == []
  {
    if outbox != [] {
      NoChangesYet(outbox[..|outbox| - 1], c);
    }
  }

  lemma OutboxProposes(outbox: seq<Emission>, coverages: seq<Coverage>, cov: Coverage, row: C.LogRow)
    requires OutboxOk(outbox, coverages) && cov.log == [row]
    ensures OutboxOk(outbox + [Emission(C.StateChanged, |coverages|, row.run, Some(row.to), Some(row.cause))],
        coverages + [cov])
  {
    var c := |coverages|;
    var e := Emission(C.StateChanged, c, row.run, Some(row.to), Some(row.cause));
    var next := coverages + [cov];
    forall d | 0 <= d < |next| ensures Changes(outbox + [e], d) == Announced(next[d].log) {
      ChangesAppend(outbox, e, d);
      if d == c {
        NoChangesYet(outbox, c);
        assert Announced(cov.log) == [(e.to, e.cause, e.run)];
      }
    }
  }
}
