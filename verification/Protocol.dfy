// The shared state of the fund's core and one function per public operation on it
// (core/db/repo/runs.py, core/db/repo/coverage.py, core/orchestrator/engine.py and the
// run, gate and coverage routes). An operation that raises leaves no trace, because its
// session rolls back; it is a None here.
module Protocol {
  import opened Domain
  import R = RunMachine
  import C = CoverageMachine
  import P = Predictions
  import Plans = Planner
  import Q = Queue
  import X = CrossCheck
  import Backoff

  datatype Coverage = Coverage(state: C.State, lead: Option<House>, log: seq<C.LogRow>)

  // The columns an outbox row is inserted with; delivery is the Outbox module's business.
  datatype Emission = Emission(
    kind: C.EventKind, coverage: CoverageId, run: Option<RunId>, to: Option<C.State>, cause: Option<C.Cause>)

  datatype Db = Db(
    runs: seq<Run>,
    coverages: seq<Coverage>,
    locks: map<CoverageId, RunId>,
    ledger: seq<P.Prediction>,
    outbox: seq<Emission>,
    now: Time)

  const EMPTY := Db([], [], map[], [], [], 0.0)

  datatype Policy = Policy(maxAttempts: int, budgetCap: real, verifyCount: int, includeDataChecker: bool)

  datatype Fund = Fund(policies: map<RunType, Policy>, tpChangePct: real, monitorHouse: House)

  // The operator's configuration grants every stage at least one attempt.
  predicate FundOk(fund: Fund) {
    forall t | t in fund.policies :: fund.policies[t].maxAttempts >= 1
  }

  function SetRun(db: Db, rid: RunId, r: Run): Db
    requires rid < |db.runs|
  {
    db.(runs := db.runs[rid := r])
  }

  // ---- coverage repository

  function FirstOpen(gates: seq<Gate>): (i: Option<nat>)
    ensures i.Some? ==> i.value < |gates| && gates[i.value].state.Open?
    ensures i.None? ==> forall j | 0 <= j < |gates| :: !gates[j].state.Open?
  {
    if gates == [] then None
    else if gates[|gates| - 1].state.Open? then Some(|gates| - 1)
    else FirstOpen(gates[..|gates| - 1])
  }

  function OpenGateOf(db: Db, rid: Option<RunId>): Option<Gate> {
    if rid.Some? && rid.value < |db.runs| && FirstOpen(db.runs[rid.value].gates).Some?
    then Some(db.runs[rid.value].gates[FirstOpen(db.runs[rid.value].gates).value])
    else None
  }

  function DecisionAnswer(a: C.Action): string {
    if a.DecideActive? then "active" else if a.DecideWatch? then "watch" else "reject"
  }

  function BuildContext(
    db: Db, a: C.Action, rid: Option<RunId>, force: bool, note: bool, hasPosition: bool): C.Context
  {
    var gate := OpenGateOf(db, rid);
    C.Context(hasPosition, force, note, true, true, false,
              C.IsDecide(a) ==> gate.Some?,
              C.IsDecide(a) ==> gate.Some? && DecisionAnswer(a) in gate.value.allowed)
  }

  const DECISION_GATE := Gate(InitiationDecision, Open, ["active", "watch", "reject"], None, None)
  const BUDGET_GATE := Gate(BudgetCap, Open, ["raise_cap", "cancel"], None, None)

  function AnsweredBy(g: Gate, answer: string): Gate {
    g.(state := Answered, answer := Some(answer))
  }

  function ApplyEffect(db: Db, c: CoverageId, a: C.Action, rid: Option<RunId>, e: C.Effect): (after: Db)
    requires c < |db.coverages|
    ensures |after.coverages| == |db.coverages|
  {
    match e
    case SetLeadHouse =>
      if rid.Some? && rid.value < |db.runs|
      then db.(coverages := db.coverages[c := db.coverages[c].(lead := db.runs[rid.value].leadHouse)])
      else db
    case OpenDecisionGate =>
      if rid.Some? && rid.value < |db.runs|
      then var r := db.runs[rid.value]; SetRun(db, rid.value, r.(gates := r.gates + [DECISION_GATE]))
      else db
    case AnswerGate =>
      if OpenGateOf(db, rid).Some?
      then
        var r := db.runs[rid.value];
        var g := FirstOpen(r.gates).value;
        SetRun(db, rid.value, r.(gates := r.gates[g := AnsweredBy(r.gates[g], DecisionAnswer(a))]))
      else db
    case CancelOpenGate =>
      if rid.Some? && rid.value < |db.runs|
      then
        var r := db.runs[rid.value];
        SetRun(db, rid.value, r.(gates := seq(|r.gates|, i requires 0 <= i < |r.gates| =>
          if r.gates[i].state.Open? then r.gates[i].(state := Withdrawn) else r.gates[i])))
      else db
    case Emit(kind) =>
      if kind.StateChanged? then db else db.(outbox := db.outbox + [Emission(kind, c, rid, None, None)])
    case Ignored(_) => db
  }

  function ApplyEffects(db: Db, c: CoverageId, a: C.Action, rid: Option<RunId>, es: seq<C.Effect>): (after: Db)
    requires c < |db.coverages|
    ensures |after.coverages| == |db.coverages|
  {
    if es == [] then db
    else ApplyEffect(ApplyEffects(db, c, a, rid, es[..|es| - 1]), c, a, rid, es[|es| - 1])
  }

  // The state change, its transition row and its one coverage.state_changed event.
  function Logged(db: Db, c: CoverageId, from: Option<C.State>, t: C.Transition, rid: Option<RunId>): (after: Db)
    requires c < |db.coverages|
    ensures |after.coverages| == |db.coverages|
  {
    var cov := db.coverages[c];
    db.(coverages := db.coverages[c := cov.(state := t.to, log := cov.log + [C.LogRow(from, t.to, t.cause, rid)])],
        outbox := db.outbox + [Emission(C.StateChanged, c, rid, Some(t.to), Some(t.cause))])
  }

  // The table's check constraint: a pending, active or watched coverage has a lead.
  predicate LeadConstraint(cov: Coverage) {
    cov.state.DecisionPending? || C.Live(cov.state) ==> cov.lead.Some?
  }

  // None: an illegal transition, or the flush that ends it violates the constraint.
  function Transition(
    db: Db, c: CoverageId, a: C.Action, rid: Option<RunId>, force: bool, note: bool, hasPosition: bool): Option<Db>
  {
    if c >= |db.coverages| then None
    else
      var from := Some(db.coverages[c].state);
      var t := C.Step(from, a, BuildContext(db, a, rid, force, note, hasPosition));
      if t.None? then None
      else
        var done := ApplyEffects(Logged(db, c, from, t.value, rid), c, a, rid, t.value.effects);
        if LeadConstraint(done.coverages[c]) then Some(done) else None
  }

  function ByRun(db: Db, c: CoverageId, a: C.Action, rid: RunId): Option<Db> {
    Transition(db, c, a, Some(rid), false, false, false)
  }

  function Propose(db: Db): Db {
    var t := C.Table(None, C.Propose).value;
    var c := |db.coverages|;
    ApplyEffects(
      db.(coverages := db.coverages + [Coverage(t.to, None, [C.LogRow(None, t.to, t.cause, None)])],
          outbox := db.outbox + [Emission(C.StateChanged, c, None, Some(t.to), Some(t.cause))]),
      c, C.Propose, None, t.effects)
  }

  datatype HouseFlags = HouseFlags(enabled: bool, assignable: bool, meta: bool)

  function SetLead(db: Db, c: CoverageId, house: House, flags: HouseFlags): Option<Db> {
    if c >= |db.coverages| then None
    else
      var from := Some(db.coverages[c].state);
      var ctx := C.HAPPY.(newHouseEnabled := flags.enabled, newHouseAssignable := flags.assignable,
          newHouseMeta := flags.meta);
      var t := C.Step(from, C.SetLead, ctx);
      if t.None? then None
      else
        var led := db.(coverages := db.coverages[c := db.coverages[c].(lead := Some(house))]);
        Some(ApplyEffects(Logged(led, c, from, t.value, None), c, C.SetLead, None, t.value.effects))
  }

  // ---- runs repository

  // INSERT ... ON CONFLICT DO NOTHING on the coverage.
  function TakeLock(locks: map<CoverageId, RunId>, c: CoverageId, rid: RunId): map<CoverageId, RunId> {
    if c in locks then locks else locks[c := rid]
  }

  function ReleaseLocks(locks: map<CoverageId, RunId>, rid: RunId): map<CoverageId, RunId> {
    map c | c in locks && locks[c] != rid :: locks[c]
  }

  datatype Started = Started(db: Db, ok: bool)

  function StartRun(db: Db, rid: RunId): Started
    requires rid < |db.runs|
  {
    var r := db.runs[rid];
    if Mutates(r.kind) then
      var locks := TakeLock(db.locks, r.coverage, rid);
      if locks[r.coverage] != rid then Started(db.(locks := locks), false)
      else Started(SetRun(db, rid, r.(status := RunStatus.Running)).(locks := locks), true)
    else Started(SetRun(db, rid, r.(status := RunStatus.Running)), true)
  }

  function ChangeStatus(db: Db, rid: RunId, a: R.RunAction): Option<Db>
    requires rid < |db.runs|
  {
    var change := R.RunTransition(db.runs[rid].status, a, 0, 1);
    if change.None? then None else Some(SetRun(db, rid, db.runs[rid].(status := change.value.to)))
  }

  function FinishAction(status: RunStatus): R.RunAction {
    if status.Succeeded? then R.Succeed else if status.Failed? then R.Fail else R.Cancel
  }

  function Finish(db: Db, rid: RunId, status: RunStatus): Option<Db> {
    if rid >= |db.runs| then None
    else
      var changed := ChangeStatus(db, rid, FinishAction(status));
      if changed.None? then None
      else
        Some(changed.value.(
          locks := ReleaseLocks(db.locks, rid),
          outbox := db.outbox + [Emission(C.RunFinished, db.runs[rid].coverage, Some(rid), None, None)]))
  }

  // The column is unique: some other gate was answered under this key.
  predicate KeyTaken(runs: seq<Run>, rid: RunId, g: nat, key: string) {
    exists q: RunId, h: nat ::
      q < |runs| && h < |runs[q].gates| && (q, h) != (rid, g) && runs[q].gates[h].key == Some(key)
  }

  // None: the key already marks another gate.
  function AnswerGate(db: Db, rid: RunId, g: nat, answer: string, key: string): Option<Db> {
    if rid >= |db.runs| || g >= |db.runs[rid].gates| then None
    else
      var r := db.runs[rid];
      var gate := r.gates[g];
      if gate.state.Answered? && gate.key == Some(key) then Some(db)
      else if KeyTaken(db.runs, rid, g, key) then None
      else Some(SetRun(db, rid, r.(gates := r.gates[g := AnsweredBy(gate, answer).(key := Some(key))])))
  }

  // ---- engine: creating and promoting a run

  // leadHouse is the caller's own lead_house parameter: absent, null, or a house.
  datatype Request = Request(
    kind: RunType,
    coverage: Option<CoverageId>,
    lead: Option<House>,
    leadHouse: Option<Option<House>>,
    verifyCount: Option<int>,
    priority: Option<int>,
    contributors: seq<House>,
    metaHouses: set<House>,
    houses: set<House>)

  // Truthiness of an optional house: an empty key counts as none.
  predicate Given(house: Option<House>) {
    house.Some? && house.value != ""
  }

  // setdefault: the caller's entry stays, even a null one.
  function StoredLead(req: Request, lead: Option<House>): Option<House> {
    if req.leadHouse.Some? then req.leadHouse.value
    else if Given(lead) then lead
    else None
  }

  function PlanArgs(db: Db, fund: Fund, req: Request): Plans.Args
    requires req.kind in fund.policies && req.coverage.Some? && req.coverage.value < |db.coverages|
  {
    var policy := fund.policies[req.kind];
    Plans.Args(
      if Given(req.lead) then req.lead else db.coverages[req.coverage.value].lead,
      req.contributors,
      if req.verifyCount.Some? then req.verifyCount.value else policy.verifyCount,
      policy.includeDataChecker,
      Some(fund.monitorHouse),
      req.metaHouses,
      policy.maxAttempts)
  }

  // The house column is not nullable and references the houses table.
  predicate Seatable(plan: seq<Plans.StageIn>, houses: set<House>) {
    forall i | 0 <= i < |plan| :: plan[i].house.Some? && plan[i].house.value in houses
  }

  function NewStage(s: Plans.StageIn, now: Time): Stage
    requires s.house.Some?
  {
    Stage(s.seqNo, s.role, s.house.value, s.substrate, StageStatus.Queued, s.dependsOn, now,
          None, None, None, 0, s.maxAttempts, None, 0.0, [])
  }

  function NewStages(plan: seq<Plans.StageIn>, houses: set<House>, now: Time): seq<Stage>
    requires Seatable(plan, houses)
  {
    seq(|plan|, i requires 0 <= i < |plan| => NewStage(plan[i], now))
  }

  // None: no policy for the type, no such coverage, no coverage at all, a type whose plan
  // call lacks its retry budget, a plan error, or a seat without a known house.
  function CreateRun(db: Db, fund: Fund, req: Request): Option<Db> {
    if req.kind !in fund.policies || req.coverage.None? || req.coverage.value >= |db.coverages| then None
    else
      var args := PlanArgs(db, fund, req);
      var plan := Plans.Plan(req.kind, args);
      if plan.None? || !Seatable(plan.value, req.houses) then None
      else
        var run := Run(
          req.coverage.value, req.kind, RunStatus.Queued,
          if req.priority.Some? then req.priority.value else 100,
          db.now, fund.policies[req.kind].budgetCap, 0.0, StoredLead(req, args.lead),
          NewStages(plan.value, req.houses, db.now), []);
        Some(db.(runs := db.runs + [run]))
  }

  // The coverage's lead references the houses table.
  predicate KnownLead(lead: Option<House>, houses: set<House>) {
    lead.Some? ==> lead.value in houses
  }

  // None: no such run, or the lead it stored for its coverage is no known house.
  function Promote(db: Db, rid: RunId, houses: set<House>): Option<Started> {
    if rid >= |db.runs| then None
    else if !db.runs[rid].status.Queued? then Some(Started(db, false))
    else
      var started := StartRun(db, rid);
      var r := db.runs[rid];
      if !started.ok then Some(started)
      else if r.kind.Initiation? && r.coverage < |db.coverages| && db.coverages[r.coverage].state.Proposed? then
        var moved := ByRun(started.db, r.coverage, C.StartInitiation, rid);
        if moved.None? || !KnownLead(r.leadHouse, houses) then None else Some(Started(moved.value, true))
      else Some(started)
  }

  // ---- engine: one advance pass over a run whose stages have been drained

  // lastTp is the price the latest-target query returns during this pass.
  datatype Pass = Pass(fund: Fund, contributors: seq<House>, lastTp: Option<real>)

  function MaxSeq(stages: seq<Stage>): nat {
    if stages == [] then 0
    else
      var m := MaxSeq(stages[..|stages| - 1]);
      if stages[|stages| - 1].seqNo > m then stages[|stages| - 1].seqNo else m
  }

  predicate HasCrossCheck(r: Run) {
    exists j :: 0 <= j < |r.stages| && r.stages[j].role.CrossCheck?
  }

  function CrossCheckStage(r: Run, author: Stage, pass: Pass, now: Time): Stage
    requires r.kind in pass.fund.policies
  {
    Stage(MaxSeq(r.stages) + 1, CrossCheck,
          if |pass.contributors| > 0 then pass.contributors[0] else author.house,
          Harness, StageStatus.Queued, Some(author.seqNo), now,
          None, None, None, 0, pass.fund.policies[r.kind].maxAttempts, None, 0.0, [])
  }

  // None: no policy for the run's type.
  function MaybeAppend(r: Run, author: Stage, pass: Pass, now: Time): Option<Run> {
    if !X.AutoCrossCheck(author.result, pass.lastTp, pass.fund.tpChangePct) || HasCrossCheck(r) then Some(r)
    else if r.kind !in pass.fund.policies then None
    else Some(r.(stages := r.stages + [CrossCheckStage(r, author, pass, now)]))
  }

  datatype Scan = Scan(run: Run, ledger: seq<P.Prediction>)

  function OriginOf(r: Run, rid: RunId, s: Stage, now: Time): P.Origin {
    P.Origin(r.coverage, rid, s.seqNo, s.house, now)
  }

  predicate Scanned(s: Stage) {
    s.status.Succeeded? && Truthy(s.result)
  }

  // Register the stage's predictions, then maybe append a cross-check.
  function ScanStage(acc: Scan, rid: RunId, k: nat, pass: Pass, now: Time): (r: Option<Scan>)
    requires k < |acc.run.stages|
    ensures r.Some? ==> |acc.run.stages| <= |r.value.run.stages|
  {
    var s := acc.run.stages[k];
    if !Scanned(s) then Some(acc)
    else
      var ledger := P.Register(acc.ledger, OriginOf(acc.run, rid, s, now), P.Entries(s.result.value.predictions));
      if ledger.None? then None
      else if acc.run.kind.EventAnalysis? && s.role.Author? then
        var run := MaybeAppend(acc.run, s, pass, now);
        if run.None? then None else Some(Scan(run.value, ledger.value))
      else Some(Scan(acc.run, ledger.value))
  }

  // The first n stages of the run.
  function ScanTo(acc: Scan, rid: RunId, n: nat, pass: Pass, now: Time): (r: Option<Scan>)
    requires n <= |acc.run.stages|
    ensures r.Some? ==> |acc.run.stages| <= |r.value.run.stages|
  {
    if n == 0 then Some(acc)
    else
      var before := ScanTo(acc, rid, n - 1, pass, now);
      if before.None? then None else ScanStage(before.value, rid, n - 1, pass, now)
  }

  predicate AnyFailed(r: Run) {
    exists k :: 0 <= k < |r.stages| && r.stages[k].status.Failed?
  }

  predicate BackoffPending(r: Run, now: Time) {
    exists k :: 0 <= k < |r.stages| && r.stages[k].status.Queued? && r.stages[k].availableAt > now
  }

  predicate AllTerminal(r: Run) {
    forall k | 0 <= k < |r.stages| :: StageTerminal(r.stages[k].status)
  }

  predicate OverBudget(r: Run) {
    r.budgetCap != 0.0 && r.cost > r.budgetCap
  }

  function FailRun(db: Db, rid: RunId): Option<Db>
    requires rid < |db.runs|
  {
    var r := db.runs[rid];
    if r.kind.Initiation? && r.coverage < |db.coverages| && db.coverages[r.coverage].state.Initiating? then
      var failed := ByRun(db, r.coverage, C.InitiationFailed, rid);
      if failed.None? then None else Finish(failed.value, rid, RunStatus.Failed)
    else Finish(db, rid, RunStatus.Failed)
  }

  function PauseForBudget(db: Db, rid: RunId): Option<Db>
    requires rid < |db.runs|
  {
    var r := db.runs[rid];
    ChangeStatus(SetRun(db, rid, r.(gates := r.gates + [BUDGET_GATE])), rid, R.OpenGate)
  }

  function FinalizeRun(db: Db, rid: RunId): Option<Db>
    requires rid < |db.runs|
  {
    var r := db.runs[rid];
    if r.kind.Initiation? && r.coverage < |db.coverages| then
      var delivered := ByRun(db, r.coverage, C.InitiationDelivered, rid);
      if delivered.None? || rid >= |delivered.value.runs| then None
      else ChangeStatus(delivered.value, rid, R.OpenGate)
    else Finish(db, rid, RunStatus.Succeeded)
  }

  function Conclude(db: Db, rid: RunId): Option<Db>
    requires rid < |db.runs|
  {
    var r := db.runs[rid];
    if AnyFailed(r) then FailRun(db, rid)
    else if BackoffPending(r, db.now) then ChangeStatus(db, rid, R.Requeue)
    else if OverBudget(r) then PauseForBudget(db, rid)
    else if !AllTerminal(r) then Some(db)
    else FinalizeRun(db, rid)
  }

  function Advance(db: Db, rid: RunId, pass: Pass): Option<Db> {
    if rid >= |db.runs| then None
    else if !db.runs[rid].status.Running? then Some(db)
    else
      var scan := ScanTo(Scan(db.runs[rid], db.ledger), rid, |db.runs[rid].stages|, pass, db.now);
      if scan.None? then None
      else Conclude(SetRun(db, rid, scan.value.run).(ledger := scan.value.ledger), rid)
  }

  // ---- PM routes

  // gateRun is the run of the open gate that the query by coverage returned, if any.
  function Decide(db: Db, c: CoverageId, a: C.Action, gateRun: Option<RunId>): Option<Db> {
    if !C.IsDecide(a) then None
    else
      var decided := Transition(db, c, a, gateRun, false, false, false);
      if decided.None? then None
      else if gateRun.Some? then Finish(decided.value, gateRun.value, RunStatus.Succeeded)
      else decided
  }

  predicate PmAction(a: C.Action) {
    a.Promote? || a.Demote? || a.Exit? || a.RePropose?
  }

  // ---- one step of the whole system

  datatype Step =
    | Proposing
    | Creating(fund: Fund, req: Request)
    | Promoting(rid: RunId, houses: set<House>)
    | Advancing(rid: RunId, pass: Pass)
    | Claiming(rid: RunId, k: nat, worker: Worker, lease: real, filter: Q.Filter)
    | Beating(rid: RunId, k: nat, worker: Worker, lease: real)
    | Completing(rid: RunId, k: nat, cost: real, result: StageResult)
    | Failing(rid: RunId, k: nat, cost: real, retryable: bool, kill: Option<string>, backoff: Backoff.Policy,
        factor: real)
    | Reaping(rid: RunId, k: nat, cutoff: Time, backoff: Backoff.Policy, factor: real)
    | Deciding(c: CoverageId, action: C.Action, gateRun: Option<RunId>)
    | Answering(rid: RunId, g: nat, answer: string, key: string)
    | Cancelling(rid: RunId)
    | Steering(c: CoverageId, action: C.Action, force: bool, note: bool, hasPosition: bool)
    | Leading(c: CoverageId, house: House, flags: HouseFlags)
    | Editing(id: nat, fields: seq<(P.Column, P.Value)>)
    | Waiting(until: Time)

  predicate AtStage(db: Db, rid: RunId, k: nat) {
    rid < |db.runs| && k < |db.runs[rid].stages|
  }

  function StageAt(db: Db, rid: RunId, k: nat): Stage
    requires AtStage(db, rid, k)
  {
    db.runs[rid].stages[k]
  }

  function SetStage(db: Db, rid: RunId, k: nat, s: Stage): Db
    requires AtStage(db, rid, k)
  {
    SetRun(db, rid, Q.WithStage(db.runs[rid], k, s))
  }

  function SetStageRolledUp(db: Db, rid: RunId, k: nat, s: Stage): Db
    requires AtStage(db, rid, k)
  {
    SetRun(db, rid, Q.RolledUp(Q.WithStage(db.runs[rid], k, s)))
  }

  function CompleteStage(db: Db, rid: RunId, k: nat, cost: real, result: StageResult): Option<Db>
    requires AtStage(db, rid, k)
  {
    var done := Q.Completed(StageAt(db, rid, k), cost, result);
    if done.None? then None else Some(SetStageRolledUp(db, rid, k, done.value))
  }

  function FailStage(
    db: Db, rid: RunId, k: nat, cost: real, retryable: bool, kill: Option<string>, p: Backoff.Policy,
        factor: real): Option<Db>
    requires AtStage(db, rid, k)
  {
    var s := StageAt(db, rid, k);
    var failed := Q.FailedAttempt(s, cost, retryable, kill, Q.RetryAt(s, db.now, p, factor), db.now);
    if failed.None? then None else Some(SetStageRolledUp(db, rid, k, failed.value))
  }

  function ReapStage(db: Db, rid: RunId, k: nat, p: Backoff.Policy, factor: real): Db
    requires AtStage(db, rid, k)
  {
    var s := StageAt(db, rid, k);
    SetStage(db, rid, k, Q.Reaped(s, Q.RetryAt(s, db.now, p, factor)))
  }

  function Heartbeat(db: Db, rid: RunId, k: nat, worker: Worker, lease: real): Db
    requires AtStage(db, rid, k)
  {
    var s := StageAt(db, rid, k);
    if s.claimedBy == Some(worker) && s.status.Running?
    then SetStage(db, rid, k, s.(leaseExpiresAt := Some(db.now + lease)))
    else db
  }

  ghost predicate OpenGateRun(db: Db, c: CoverageId, rid: RunId) {
    rid < |db.runs| && db.runs[rid].coverage == c && OpenGateOf(db, Some(rid)).Some?
  }

  // Which step labels the environment may offer: what its queries returned is true of
  // the state, configurations are sane, and fail_stage is called on running stages only.
  ghost predicate Enabled(db: Db, step: Step) {
    match step
    case Creating(fund, req) => FundOk(fund)
    case Advancing(rid, pass) =>
      FundOk(pass.fund) && (rid < |db.runs| ==> P.IsLastTarget(db.ledger, db.runs[rid].coverage, pass.lastTp))
    case Claiming(rid, k, worker, lease, filter) => Q.IsFirst(db.runs, rid, k, db.now, filter)
    case Beating(rid, k, worker, lease) => AtStage(db, rid, k)
    case Completing(rid, k, cost, result) => AtStage(db, rid, k)
    case Failing(rid, k, cost, retryable, kill, p, factor) =>
      AtStage(db, rid, k) && StageAt(db, rid, k).status.Running?
    case Reaping(rid, k, cutoff, p, factor) =>
      AtStage(db, rid, k) && Q.Expired(StageAt(db, rid, k), cutoff)
    case Deciding(c, action, gateRun) =>
      if gateRun.Some? then OpenGateRun(db, c, gateRun.value) else forall rid: RunId :: !OpenGateRun(db, c, rid)
    case Steering(c, action, force, note, hasPosition) => PmAction(action)
    case Waiting(until) => until >= db.now
    case _ => true
  }

  // None: the step raises and nothing happens.
  function Apply(db: Db, step: Step): Option<Db>
    requires Enabled(db, step)
  {
    match step
    case Proposing => Some(Propose(db))
    case Creating(fund, req) => CreateRun(db, fund, req)
    case Promoting(rid, houses) =>
      var p := Promote(db, rid, houses);
      if p.None? then None else Some(p.value.db)
    case Advancing(rid, pass) => Advance(db, rid, pass)
    case Claiming(rid, k, worker, lease, filter) =>
      Some(SetStage(db, rid, k, Q.Claimed(StageAt(db, rid, k), worker, db.now, lease)))
    case Beating(rid, k, worker, lease) => Some(Heartbeat(db, rid, k, worker, lease))
    case Completing(rid, k, cost, result) => CompleteStage(db, rid, k, cost, result)
    case Failing(rid, k, cost, retryable, kill, p, factor) => FailStage(db, rid, k, cost, retryable, kill, p, factor)
    case Reaping(rid, k, cutoff, p, factor) => Some(ReapStage(db, rid, k, p, factor))
    case Deciding(c, action, gateRun) => Decide(db, c, action, gateRun)
    case Answering(rid, g, answer, key) => AnswerGate(db, rid, g, answer, key)
    case Cancelling(rid) => Finish(db, rid, Cancelled)
    case Steering(c, action, force, note, hasPosition) => Transition(db, c, action, None, force, note, hasPosition)
    case Leading(c, house, flags) => SetLead(db, c, house, flags)
    case Editing(id, fields) =>
      var ledger := P.Update(db.ledger, id, fields);
      if ledger.None? then None else Some(db.(ledger := ledger.value))
    case Waiting(until) => Some(db.(now := until))
  }

  ghost predicate Next(db: Db, step: Step, after: Db) {
    Enabled(db, step) && Apply(db, step) == Some(after)
  }
}
