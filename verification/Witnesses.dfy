// Runs of the system, from the empty database, that end in the states the findings are
// about: concrete inputs for every promise that does not hold.
module Witnesses {
  import opened Domain
  import opened Protocol
  import opened Invariants
  import opened Effects
  import opened Lifecycle
  import opened Sources
  import opened Traces
  import opened Stranding
  import opened Starvation
  import C = CoverageMachine
  import Plans = Planner
  import Q = Queue
  import Routes

  ghost predicate Reachable(db: Db) {
    exists p: Trace :: Reaches(p, EMPTY, db)
  }

  lemma Onwards(db: Db, step: Step, after: Db)
    requires Reachable(db) && Next(db, step, after)
    ensures Reachable(after)
  {
    var p: Trace :| Reaches(p, EMPTY, db);
    ThenReaches(p, EMPTY, db, step, after);
  }

  lemma ReachableIsGood(db: Db)
    requires Reachable(db)
    ensures Inv(db)
  {
    var p: Trace :| Reaches(p, EMPTY, db);
    StartOk();
    ReachesKeeps(p, EMPTY, db);
  }

  // ---- a small fund: one house, one attempt a stage, no verifiers

  const HOUSES: set<House> := {"h"}
  const FUND := Fund(
    map[Initiation := Policy(1, 0.0, 0, false), EventAnalysis := Policy(1, 0.0, 0, false),
        MonitorTick := Policy(1, 1.0, 0, false)],
    5.0, "h")

  function Ask(kind: RunType, entry: Option<Option<House>>): Request {
    Request(kind, Some(0), Some("h"), entry, None, None, [], {}, HOUSES)
  }

  function Fresh(seqNo: nat, role: Role, substrate: Substrate, dependsOn: Option<nat>): Stage {
    Stage(seqNo, role, "h", substrate, StageStatus.Queued, dependsOn, 0.0, None, None, None, 0, 1, None, 0.0, [])
  }

  function Done(s: Stage, cost: real, result: StageResult): Stage {
    s.(status := StageStatus.Succeeded, attempts := 1, result := Some(result), cost := cost,
       rows := [Attempt(1, AttemptStatus.Succeeded, "w", cost, None)])
  }

  const AUTHOR := Fresh(1, Author, Harness, None)
  const FINALIZER := Fresh(2, Finalizer, Harness, Some(1))
  const MONITOR := Fresh(1, Monitor, Api, None)

  function RunOf(kind: RunType, cap: real, lead: Option<House>, stages: seq<Stage>): Run {
    Run(0, kind, RunStatus.Queued, 100, 0.0, cap, 0.0, lead, stages, [])
  }

  // The one coverage exists and no time has passed.
  predicate Ready(db: Db) {
    |db.coverages| == 1 && db.now == 0.0
  }

  lemma Begun() returns (db: Db)
    ensures Reachable(db) && Ready(db) && db.runs == [] && db.locks == map[] && db.ledger == []
    ensures db.coverages[0].state.Proposed?
  {
    db := Propose(EMPTY);
    assert Reaches(Still(EMPTY), EMPTY, EMPTY);
    ProposeMeaning(EMPTY);
    Onwards(EMPTY, Proposing, db);
  }

  // ---- creating

  lemma NoContributors(n: int)
    ensures Plans.Verifiers([], n) == []
  {
  }

  lemma PlanOf(kind: RunType, db: Db, entry: Option<Option<House>>)
    requires Ready(db) && (kind.Initiation? || kind.EventAnalysis? || kind.MonitorTick?)
    ensures var plan := Plans.Plan(kind, PlanArgs(db, FUND, Ask(kind, entry)));
            && plan.Some? && Seatable(plan.value, HOUSES)
            && NewStages(plan.value, HOUSES, 0.0) ==
                 if kind.Initiation? then [AUTHOR, FINALIZER] else if kind.EventAnalysis? then [AUTHOR] else [MONITOR]
  {
    NoContributors(0);
    var args := PlanArgs(db, FUND, Ask(kind, entry));
    var plan := Plans.Plan(kind, args);
    if kind.Initiation? {
      assert Plans.InitiationSlots(args) == [Plans.Slot(Author, Some("h")), Plans.Slot(Finalizer, Some("h"))];
      assert plan == Some(Plans.Chained(Plans.InitiationSlots(args), 1));
    }
  }

  function StagesFor(kind: RunType): seq<Stage> {
    if kind.Initiation? then [AUTHOR, FINALIZER] else if kind.EventAnalysis? then [AUTHOR] else [MONITOR]
  }

  lemma Created(db: Db, kind: RunType, entry: Option<Option<House>>) returns (after: Db)
    requires Reachable(db) && Ready(db) && (kind.Initiation? || kind.EventAnalysis? || kind.MonitorTick?)
    ensures Reachable(after) && Ready(after)
    ensures after == db.(runs := db.runs + [RunOf(kind, FUND.policies[kind].budgetCap,
        StoredLead(Ask(kind, entry), Some("h")), StagesFor(kind))])
  {
    PlanOf(kind, db, entry);
    var made := CreateRun(db, FUND, Ask(kind, entry));
    after := made.value;
    Onwards(db, Creating(FUND, Ask(kind, entry)), after);
  }

  // ---- working a stage

  // Nothing else can be claimed.
  ghost predicate OnlyChoice(db: Db, rid: RunId, k: nat) {
    forall r: RunId, j: nat | Q.Eligible(db.runs, r, j, db.now, ANY_STAGE) :: r == rid && j == k
  }

  const ANY_STAGE := Q.Filter([], [])

  lemma StageWorked(db: Db, rid: RunId, k: nat, cost: real, result: StageResult) returns (after: Db)
    requires Reachable(db) && Ready(db) && Q.Eligible(db.runs, rid, k, 0.0, ANY_STAGE) && OnlyChoice(db, rid, k)
    requires var s := db.runs[rid].stages[k]; s.attempts == 0 && s.rows == [] && s.cost == 0.0
    requires var s := db.runs[rid].stages[k]; s.claimedBy.None? && s.claimedAt.None? && s.leaseExpiresAt.None?
    ensures Reachable(after)
    ensures after == SetStageRolledUp(db, rid, k, Done(db.runs[rid].stages[k], cost, result))
  {
    var s := db.runs[rid].stages[k];
    var claimed := Q.Claimed(s, "w", 0.0, 1.0);
    var mid := SetStage(db, rid, k, claimed);
    Onwards(db, Claiming(rid, k, "w", 1.0, ANY_STAGE), mid);
    assert StageAt(mid, rid, k) == claimed;
    AttemptDone(s, cost, result);
    after := SetStageRolledUp(mid, rid, k, Done(s, cost, result));
    Onwards(mid, Completing(rid, k, cost, result), after);
    var r := db.runs[rid];
    assert r.stages[k := claimed][k := Done(s, cost, result)] == r.stages[k := Done(s, cost, result)];
    assert mid.runs[rid := after.runs[rid]] == db.runs[rid := after.runs[rid]];
  }

  lemma AttemptDone(s: Stage, cost: real, result: StageResult)
    requires s.attempts == 0 && s.rows == [] && s.cost == 0.0
    requires s.claimedBy.None? && s.claimedAt.None? && s.leaseExpiresAt.None?
    ensures Q.Completed(Q.Claimed(s, "w", 0.0, 1.0), cost, result) == Some(Done(s, cost, result))
  {
    var claimed := Q.Claimed(s, "w", 0.0, 1.0);
    assert claimed.rows == [Attempt(1, AttemptStatus.Running, "w", 0.0, None)];
    assert Q.RunningRow(claimed.rows) == Some(0);
    var closed := Q.CloseAttempt(claimed, AttemptStatus.Succeeded, cost, None);
    assert closed.rows == [Attempt(1, AttemptStatus.Succeeded, "w", cost, None)];
  }

  // ---- an initiation, up to the end of its work

  function Initiating(lead: Option<House>, status: RunStatus, a: Stage, f: Stage, gates: seq<Gate>): Run {
    Run(0, Initiation, status, 100, 0.0, 0.0, 0.0, lead, [a, f], gates)
  }

  const AUTHORED := Done(AUTHOR, 0.0, EmptyResult)
  const FINALIZED := Done(FINALIZER, 0.0, EmptyResult)

  function Unworked(lead: Option<House>, status: RunStatus): Run {
    Initiating(lead, status, AUTHOR, FINALIZER, [])
  }

  function FullyWorked(lead: Option<House>, status: RunStatus, gates: seq<Gate>): Run {
    Initiating(lead, status, AUTHORED, FINALIZED, gates)
  }

  // No run but this one is running.
  predicate Alone(db: Db, rid: RunId) {
    forall q: RunId | q < |db.runs| && q != rid :: !db.runs[q].status.Running?
  }

  lemma AuthorIsNext(db: Db, rid: RunId, lead: Option<House>)
    requires rid < |db.runs| && Alone(db, rid) && db.now == 0.0 && db.runs[rid] == Unworked(lead, RunStatus.Running)
    ensures Q.Eligible(db.runs, rid, 0, 0.0, ANY_STAGE) && OnlyChoice(db, rid, 0)
  {
    assert !Q.DependencyMet(db.runs[rid], FINALIZER);
  }

  lemma FinalizerIsNext(db: Db, rid: RunId, lead: Option<House>)
    requires rid < |db.runs| && Alone(db, rid) && db.now == 0.0
    requires db.runs[rid] == Initiating(lead, RunStatus.Running, AUTHORED, FINALIZER, [])
    ensures Q.Eligible(db.runs, rid, 1, 0.0, ANY_STAGE) && OnlyChoice(db, rid, 1)
  {
    assert db.runs[rid].stages[0] == AUTHORED;
    assert Q.DependencyMet(db.runs[rid], FINALIZER);
  }

  lemma NoCost(a: Stage, b: Stage)
    requires a.cost == 0.0 && b.cost == 0.0
    ensures Q.StageCost([a, b]) == 0.0
  {
    assert [a, b][..1] == [a] && [a][..0] == [];
    assert Q.StageCost([a]) == 0.0;
  }

  lemma WorkedOut(db: Db, rid: RunId, lead: Option<House>) returns (after: Db)
    requires Reachable(db) && Ready(db) && rid < |db.runs| && Alone(db, rid)
    requires db.runs[rid] == Unworked(lead, RunStatus.Running)
    ensures Reachable(after)
    ensures after == db.(runs := db.runs[rid := FullyWorked(lead, RunStatus.Running, [])])
  {
    AuthorIsNext(db, rid, lead);
    var mid := StageWorked(db, rid, 0, 0.0, EmptyResult);
    NoCost(AUTHORED, FINALIZER);
    assert [AUTHOR, FINALIZER][0 := AUTHORED] == [AUTHORED, FINALIZER];
    assert mid.runs[rid] == Initiating(lead, RunStatus.Running, AUTHORED, FINALIZER, []);
    FinalizerIsNext(mid, rid, lead);
    after := StageWorked(mid, rid, 1, 0.0, EmptyResult);
    NoCost(AUTHORED, FINALIZED);
    assert [AUTHORED, FINALIZER][1 := FINALIZED] == [AUTHORED, FINALIZED];
    assert after.runs == db.runs[rid := FullyWorked(lead, RunStatus.Running, [])];
  }

  // The first initiation, worked out: its coverage is initiating under the stored lead.
  lemma FirstInitiation(entry: Option<Option<House>>) returns (db: Db)
    requires entry.None? || entry == Some(None)
    ensures var lead := if entry.None? then Some("h") else None;
            && Reachable(db) && Ready(db) && db.runs == [FullyWorked(lead, RunStatus.Running, [])] && db.ledger == []
            && db.coverages[0].state.Initiating? && db.coverages[0].lead == lead
            && db.locks == map[0 := 0]
  {
    var lead := if entry.None? then Some("h") else None;
    var d1 := Begun();
    var d2 := Created(d1, Initiation, entry);
    assert d2.runs == [Unworked(lead, RunStatus.Queued)];
    var d3 := FirstPromoted(d2, lead);
    db := WorkedOut(d3, 0, lead);
  }

  lemma FirstPromoted(db: Db, lead: Option<House>) returns (after: Db)
    requires Reachable(db) && Ready(db) && db.runs == [Unworked(lead, RunStatus.Queued)] && db.ledger == []
    requires db.coverages[0].state.Proposed? && db.locks == map[] && KnownLead(lead, HOUSES)
    ensures Reachable(after) && Ready(after) && after.runs == [Unworked(lead, RunStatus.Running)] && after.ledger == []
    ensures after.coverages[0].state.Initiating? && after.coverages[0].lead == lead && after.locks == map[0 := 0]
  {
    var started := StartRun(db, 0);
    StartMeaning(started.db, 0, 0);
    after := Promote(db, 0, HOUSES).value.db;
    Onwards(db, Promoting(0, HOUSES), after);
  }

  // ---- its delivery

  const QUIET := Pass(FUND, [], None)

  lemma {:induction false} QuietScan(start: Scan, rid: RunId, n: nat, pass: Pass, now: Time)
    requires n <= |start.run.stages| && forall k | 0 <= k < |start.run.stages| :: !Scanned(start.run.stages[k])
    ensures ScanTo(start, rid, n, pass, now) == Some(start)
  {
    if n > 0 {
      QuietScan(start, rid, n - 1, pass, now);
    }
  }

  // A pass that finds nothing to scan goes straight to its verdict.
  lemma QuietPass(db: Db, rid: RunId) returns (after: Db)
    requires Reachable(db) && Ready(db) && db.ledger == [] && rid < |db.runs| && db.runs[rid].status.Running?
    requires db.runs[rid].coverage == 0
    requires forall k | 0 <= k < |db.runs[rid].stages| :: !Scanned(db.runs[rid].stages[k])
    requires Verdict(db, rid).Some?
    ensures Reachable(after) && Verdict(db, rid) == Some(after)
  {
    QuietScan(Scan(db.runs[rid], db.ledger), rid, |db.runs[rid].stages|, QUIET, db.now);
    assert db.runs[rid := db.runs[rid]] == db.runs;
    ConcludeExact(db, rid);
    after := Verdict(db, rid).value;
    assert Advance(db, rid, QUIET) == Some(after);
    Onwards(db, Advancing(rid, QUIET), after);
  }

  lemma WorkIsDone(lead: Option<House>, now: Time)
    ensures var r := FullyWorked(lead, RunStatus.Running, []);
            && AllSatisfied(r) && !AnyFailed(r) && !BackoffPending(r, now) && !OverBudget(r) && AllTerminal(r)
            && forall k | 0 <= k < |r.stages| :: !Scanned(r.stages[k])
  {
  }

  // The first initiation waits for the PM's decision.
  lemma AtItsGate() returns (db: Db)
    ensures Reachable(db) && Ready(db) && db.runs == [FullyWorked(Some("h"), WaitingPm, [DECISION_GATE])]
    ensures Pending(db, 0) && db.ledger == [] && db.locks == map[0 := 0]
  {
    var worked := FirstInitiation(None);
    WorkIsDone(Some("h"), 0.0);
    assert Verdict(worked, 0) == Some(Delivered(worked, 0));
    db := QuietPass(worked, 0);
    assert [] + [DECISION_GATE] == [DECISION_GATE];
  }

  // ---- findings

  lemma Cancelled0() returns (db: Db)
    ensures Reachable(db) && Ready(db) && db.runs == [FullyWorked(Some("h"), Cancelled, [DECISION_GATE])]
    ensures Pending(db, 0) && db.ledger == [] && db.locks == map[]
  {
    var gated := AtItsGate();
    FinishMeaning(gated, 0, Cancelled);
    db := Finish(gated, 0, Cancelled).value;
    Onwards(gated, Cancelling(0), db);
    assert db.locks == map[];
  }

  // Initiate, deliver, cancel: the coverage is pending and nobody can ever decide on it.
  lemma CancelledIsStranded()
    ensures exists db: Db :: Reachable(db) && Stranded(db, 0)
  {
    var db := Cancelled0();
    assert !Decidable(db, 0);
    assert Stranded(db, 0);
  }

  // The first run still waits, with its one gate answered "active".
  predicate AnsweredActive(db: Db) {
    && |db.runs| == 1 && db.runs[0].status.WaitingPm? && |db.runs[0].gates| == 1
    && db.runs[0].gates[0].state.Answered? && db.runs[0].gates[0].answer == Some("active")
  }

  // So it is after answering the decision gate through the gate route.
  lemma AnsweredIsStranded()
    ensures exists db: Db :: Reachable(db) && Stranded(db, 0) && AnsweredActive(db)
  {
    var gated := AtItsGate();
    assert !KeyTaken(gated.runs, 0, 0, "k");
    var db := AnswerGate(gated, 0, 0, "active", "k").value;
    Onwards(gated, Answering(0, 0, "active", "k"), db);
    assert !Decidable(db, 0);
    assert Stranded(db, 0);
  }

  // A second initiation on the stranded coverage is promoted and worked like any other,
  // and then no pass over it can ever go through.
  lemma SecondInitiationIsDoomed()
    ensures exists db: Db :: Reachable(db) && Doomed(db, 1) && Pending(db, 0)
  {
    var stranded := Cancelled0();
    var made := Created(stranded, Initiation, None);
    assert made.runs == [stranded.runs[0], Unworked(Some("h"), RunStatus.Queued)];
    var going := Promote(made, 1, HOUSES).value.db;
    Onwards(made, Promoting(1, HOUSES), going);
    assert going.runs == [stranded.runs[0], Unworked(Some("h"), RunStatus.Running)];
    var db := WorkedOut(going, 1, Some("h"));
    WorkIsDone(Some("h"), 0.0);
    assert Doomed(db, 1);
  }

  predicate InitiatingUnled(db: Db) {
    |db.coverages| == 1 && db.coverages[0].state.Initiating? && db.coverages[0].lead.None?
  }

  // The caller's null lead_house: the initiation runs, its coverage is initiating without a
  // lead, every result registers, and the delivery raises all the same.
  lemma NullLeadIsDoomed()
    ensures exists db: Db :: Reachable(db) && Doomed(db, 0) && InitiatingUnled(db)
  {
    var db := FirstInitiation(Some(None));
    WorkIsDone(None, 0.0);
    assert Doomed(db, 0);
  }

  // ---- a second open gate

  const OVERSPENT := Done(MONITOR, 2.0, EmptyResult)

  function Tick(status: RunStatus, cost: real, stage: Stage, gates: seq<Gate>): Run {
    Run(0, MonitorTick, status, 100, 0.0, 1.0, cost, Some("h"), [stage], gates)
  }

  lemma MonitorIsNext(db: Db)
    requires |db.runs| == 2 && !db.runs[0].status.Running? && db.now == 0.0
    requires db.runs[1] == Tick(RunStatus.Running, 0.0, MONITOR, [])
    ensures Q.Eligible(db.runs, 1, 0, 0.0, ANY_STAGE) && OnlyChoice(db, 1, 0)
  {
  }

  lemma OneCost(s: Stage)
    ensures Q.StageCost([s]) == s.cost
  {
    assert [s][..0] == [];
  }

  // A monitor tick on the pending coverage spends two dollars of one.
  lemma TickOverspends() returns (db: Db)
    ensures Reachable(db) && Ready(db) && Pending(db, 0) && db.ledger == []
    ensures db.runs == [FullyWorked(Some("h"), WaitingPm, [DECISION_GATE]), Tick(RunStatus.Running, 2.0, OVERSPENT, [])]
  {
    var gated := AtItsGate();
    var made := Created(gated, MonitorTick, None);
    assert made.runs == [gated.runs[0], Tick(RunStatus.Queued, 0.0, MONITOR, [])];
    var going := Promote(made, 1, HOUSES).value.db;
    Onwards(made, Promoting(1, HOUSES), going);
    assert going.runs == [gated.runs[0], Tick(RunStatus.Running, 0.0, MONITOR, [])];
    MonitorIsNext(going);
    db := StageWorked(going, 1, 0, 2.0, EmptyResult);
    assert [MONITOR][0 := OVERSPENT] == [OVERSPENT];
    OneCost(OVERSPENT);
    assert db.runs == [gated.runs[0], Tick(RunStatus.Running, 2.0, OVERSPENT, [])];
  }

  lemma TwoOpenGates() returns (db: Db)
    ensures Reachable(db) && Pending(db, 0)
    ensures db.runs == [FullyWorked(Some("h"), WaitingPm, [DECISION_GATE]),
        Tick(WaitingPm, 2.0, OVERSPENT, [BUDGET_GATE])]
  {
    var spent := TickOverspends();
    assert spent.runs[1] == Tick(RunStatus.Running, 2.0, OVERSPENT, []);
    assert [] + [BUDGET_GATE] == [BUDGET_GATE];
    var paused := SetRun(spent, 1, Tick(WaitingPm, 2.0, OVERSPENT, [BUDGET_GATE]));
    assert !AnyFailed(spent.runs[1]) && !BackoffPending(spent.runs[1], spent.now) && OverBudget(spent.runs[1]);
    assert Verdict(spent, 1) == Some(paused);
    db := QuietPass(spent, 1);
  }

  // Two gates are open on one pending coverage; the decision goes through with the one and
  // is refused with the other, and the route's query may find either.
  lemma DecisionDependsOnTheGateFound(a: C.Action)
    requires C.IsDecide(a)
    ensures exists db: Db :: Reachable(db) && Pending(db, 0) && EitherWay(db, a)
  {
    var db := TwoOpenGates();
    ReachableIsGood(db);
    assert FirstOpen([DECISION_GATE]) == Some(0) && FirstOpen([BUDGET_GATE]) == Some(0);
    Routes.DecisionOf(db, 0, a, Some(0));
    Routes.DecisionOf(db, 0, a, Some(1));
    assert EitherWay(db, a);
  }

  ghost predicate EitherWay(db: Db, a: C.Action) {
    && Routes.MayFind(db, 0, Some(0)) && Decide(db, 0, a, Some(0)).Some?
    && Routes.MayFind(db, 0, Some(1)) && Decide(db, 0, a, Some(1)).None?
  }
}
