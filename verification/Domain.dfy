// Vocabulary shared by every module: identifiers, enumerations and the rows that the
// queue, the repositories and the engine read and write.
//
// Child rows are nested in their parents (a run holds its stages and its gates, a stage
// holds its attempt rows, a coverage holds its transition log), and the key of a run or
// a coverage is its position in the table, so "insert" is "append" and a new key is fresh.
module Domain {
  datatype Option<+T> = None | Some(value: T)

  type RunId = nat
  type CoverageId = nat
  type House = string
  type Worker = string
  type Time = real

  datatype RunType =
    | Initiation | DeepReview | EventAnalysis | MonitorTick | PmQuery | LeadReview | Distillation

  datatype RunStatus = Queued | Running | WaitingPm | Succeeded | Failed | Cancelled

  datatype StageStatus = Queued | Running | Succeeded | Failed | Skipped

  datatype AttemptStatus = Running | Succeeded | Failed

  datatype Substrate = Harness | Api

  datatype Role =
    | Author | Verifier | DataChecker | Finalizer | Monitor | CrossCheck | Asker

  datatype GateKind = InitiationDecision | BudgetCap

  datatype GateState = Open | Answered | Withdrawn

  // ---- predictions proposed by a stage

  datatype PredictionKind =
    | TargetPrice | EntryPoint | Scenario | EventForecast | Stance
    | Blank                   // missing or empty kind: the entry is skipped
    | Unlisted(name: string)  // refused by the table's check constraint

  datatype PredictionIn = PredictionIn(
    kind: PredictionKind,
    horizon: Option<int>,     // None: missing or unparsable date
    value: Option<real>,
    currency: Option<string>,
    stance: Option<string>,
    scenarioLabel: Option<string>,
    scenarioProb: Option<real>,
    confidence: Option<real>,
    direction: Option<string>,
    pinnedPrice: Option<real>)

  // A stage result is a dictionary; an empty one is falsy and is never scanned.
  datatype StageResult = EmptyResult | Result(predictions: seq<PredictionIn>)

  // ---- rows

  datatype Attempt = Attempt(
    no: nat, status: AttemptStatus, worker: Worker, cost: real, killReason: Option<string>)

  datatype Stage = Stage(
    seqNo: nat,
    role: Role,
    house: House,
    substrate: Substrate,
    status: StageStatus,
    dependsOn: Option<nat>,
    availableAt: Time,
    claimedBy: Option<Worker>,
    claimedAt: Option<Time>,
    leaseExpiresAt: Option<Time>,
    attempts: nat,
    maxAttempts: int,
    result: Option<StageResult>,
    cost: real,
    rows: seq<Attempt>)

  datatype Gate = Gate(
    kind: GateKind,
    state: GateState,
    allowed: seq<string>,
    answer: Option<string>,
    key: Option<string>)

  datatype Run = Run(
    coverage: CoverageId,
    kind: RunType,
    status: RunStatus,
    priority: int,
    createdAt: Time,
    budgetCap: real,
    cost: real,
    leadHouse: Option<House>,
    stages: seq<Stage>,
    gates: seq<Gate>)

  // monitor_tick and pm_query runs take no per-ticker lock.
  predicate Mutates(kind: RunType) {
    kind != MonitorTick && kind != PmQuery
  }

  predicate RunTerminal(s: RunStatus) {
    s.Succeeded? || s.Failed? || s.Cancelled?
  }

  // A dependency is met once its stage succeeded or was skipped.
  predicate Satisfied(s: StageStatus) {
    s.Succeeded? || s.Skipped?
  }

  predicate StageTerminal(s: StageStatus) {
    s.Succeeded? || s.Failed? || s.Skipped?
  }

  predicate Truthy(r: Option<StageResult>) {
    r.Some? && r.value.Result?
  }
}
