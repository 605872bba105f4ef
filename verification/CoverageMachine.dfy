// The coverage state machine (core/domain/coverage_sm.py) and the meaning of the
// append-only transition log that the repository writes through it.
module CoverageMachine {
  import opened Domain

  datatype State =
    | Proposed | Initiating | DecisionPending | Active | Watch | Rejected | Exited | Failed

  datatype Action =
    | Propose | StartInitiation | InitiationDelivered | InitiationFailed | InitiationCancelled
    | RetryInitiation | Withdraw | DecideActive | DecideWatch | DecideReject
    | Promote | Demote | Exit | RePropose | SetLead

  datatype Cause =
    | ByProposal | ByStart | ByDelivery | ByFailure | ByCancellation | ByRetry | ByWithdrawal
    | ByPmDecision | ByPromotion | ByDemotion | ByExit | ByReProposal | ByLeadChange

  datatype EventKind = StateChanged | GateOpened | RunFinished

  datatype Effect =
    | SetLeadHouse
    | OpenDecisionGate
    | AnswerGate
    | CancelOpenGate
    | Emit(kind: EventKind)
    | Ignored(name: string)  // named by the table, carried out by no one

  datatype Transition = Transition(to: State, cause: Cause, effects: seq<Effect>)

  datatype Context = Context(
    hasOpenPosition: bool,
    force: bool,
    noteProvided: bool,
    newHouseEnabled: bool,
    newHouseAssignable: bool,
    newHouseMeta: bool,
    gateOpen: bool,
    answerInAllowed: bool)

  const HAPPY := Context(false, false, false, true, true, false, true, true)

  predicate IsDecide(a: Action) {
    a.DecideActive? || a.DecideWatch? || a.DecideReject?
  }

  const DECIDE_LIVE := [
    AnswerGate, Ignored("merge_branch"), Ignored("predictions_open"),
    Ignored("write_coverage_levels"), Ignored("set_decided_at"), Emit(StateChanged)]
  const DECIDE_DEAD := [AnswerGate, Ignored("no_branch_merge"), Ignored("supersede_predictions")]
  const EXIT_EFFECTS := [
    Ignored("expire_open_predictions"), Ignored("set_exited_at"), Emit(StateChanged)]
  const LEAD_EFFECTS := [
    Ignored("write_lead_history"), Ignored("open_predictions_keep_house"), Emit(StateChanged)]

  // The transition table. A missing pair is an illegal transition.
  function Table(from: Option<State>, action: Action): Option<Transition> {
    match (from, action)
    case (None, Propose) =>
      Some(Transition(Proposed, ByProposal, [Ignored("create_coverage_row"), Ignored("compute_dossier_slug")]))
    case (Some(Proposed), StartInitiation) => Some(Transition(Initiating, ByStart, [SetLeadHouse]))
    case (Some(Initiating), InitiationDelivered) =>
      Some(Transition(DecisionPending, ByDelivery, [OpenDecisionGate, Emit(GateOpened)]))
    case (Some(Initiating), InitiationFailed) => Some(Transition(State.Failed, ByFailure, [Emit(RunFinished)]))
    case (Some(DecisionPending), InitiationCancelled) =>
      Some(Transition(State.Failed, ByCancellation, [CancelOpenGate, Ignored("retain_branch"), Emit(RunFinished)]))
    case (Some(Failed), RetryInitiation) =>
      Some(Transition(Initiating, ByRetry, [Ignored("new_initiation_run")]))
    case (Some(Proposed), Withdraw) =>
      Some(Transition(Rejected, ByWithdrawal, [Ignored("no_branch_merge")]))
    case (Some(Failed), Withdraw) =>
      Some(Transition(Rejected, ByWithdrawal, [Ignored("no_branch_merge")]))
    case (Some(DecisionPending), DecideActive) => Some(Transition(Active, ByPmDecision, DECIDE_LIVE))
    case (Some(DecisionPending), DecideWatch) => Some(Transition(Watch, ByPmDecision, DECIDE_LIVE))
    case (Some(DecisionPending), DecideReject) => Some(Transition(Rejected, ByPmDecision, DECIDE_DEAD))
    case (Some(Watch), Promote) =>
      Some(Transition(Active, ByPromotion, [Ignored("spawn_deep_review"), Emit(StateChanged)]))
    case (Some(Active), Demote) => Some(Transition(Watch, ByDemotion, [Emit(StateChanged)]))
    case (Some(Active), Exit) => Some(Transition(Exited, ByExit, EXIT_EFFECTS))
    case (Some(Watch), Exit) => Some(Transition(Exited, ByExit, EXIT_EFFECTS))
    case (Some(Exited), RePropose) =>
      Some(Transition(Proposed, ByReProposal, [Ignored("reuse_dossier_history")]))
    case (Some(Rejected), RePropose) =>
      Some(Transition(Proposed, ByReProposal, [Ignored("reuse_dossier_history")]))
    case (Some(Active), SetLead) => Some(Transition(Active, ByLeadChange, LEAD_EFFECTS))
    case (Some(Watch), SetLead) => Some(Transition(Watch, ByLeadChange, LEAD_EFFECTS))
    case _ => None
  }

  predicate GuardsHold(action: Action, ctx: Context) {
    match action
    case Exit => !(ctx.hasOpenPosition && !ctx.force) && !(ctx.force && !ctx.noteProvided)
    case Withdraw => ctx.noteProvided
    case SetLead => ctx.newHouseEnabled && !ctx.newHouseMeta && ctx.newHouseAssignable
    case DecideActive => ctx.gateOpen && ctx.answerInAllowed
    case DecideWatch => ctx.gateOpen && ctx.answerInAllowed
    case DecideReject => ctx.gateOpen && ctx.answerInAllowed
    case _ => true
  }

  // None stands for a raised IllegalTransition.
  function Step(from: Option<State>, action: Action, ctx: Context): Option<Transition> {
    if Table(from, action).None? || !GuardsHold(action, ctx) then None else Table(from, action)
  }

  function LegalActions(from: Option<State>): set<Action> {
    set a: Action | Table(from, a).Some?
  }

  // An action is offered exactly when some context lets it through.
  lemma LegalActionsExact(from: Option<State>, a: Action)
    ensures a in LegalActions(from) <==> exists ctx :: Step(from, a, ctx).Some?
  {
    if a in LegalActions(from) {
      var ctx := HAPPY.(noteProvided := true);
      assert GuardsHold(a, ctx);
      assert Step(from, a, ctx).Some?;
    }
  }

  // ---- the log

  datatype LogRow = LogRow(from: Option<State>, to: State, cause: Cause, run: Option<RunId>)

  ghost predicate IsEntry(row: LogRow) {
    exists a: Action ::
      Table(row.from, a).Some? && Table(row.from, a).value.to == row.to && Table(row.from, a).value.cause == row.cause
  }

  // A log that starts from nothing, uses only table entries and never jumps.
  ghost predicate Chain(log: seq<LogRow>) {
    && |log| > 0
    && log[0].from.None?
    && (forall i | 0 <= i < |log| :: IsEntry(log[i]))
    && (forall i | 0 < i < |log| :: log[i].from == Some(log[i - 1].to))
  }

  // Run the log from nothing; a row that does not leave the current state is refused.
  function Replay(log: seq<LogRow>): (current: Option<Option<State>>)
  {
    if log == [] then Some(None)
    else
      var before := Replay(log[..|log| - 1]);
      var row := log[|log| - 1];
      if before == Some(row.from) then Some(Some(row.to)) else None
  }

  lemma {:induction false} ChainReplays(log: seq<LogRow>)
    requires Chain(log)
    ensures Replay(log) == Some(Some(log[|log| - 1].to))
  {
    var init := log[..|log| - 1];
    if init == [] {
      assert Replay(init) == Some(None);
    } else {
      assert Chain(init);
      ChainReplays(init);
    }
  }

  lemma ChainExtends(log: seq<LogRow>, a: Action, run: Option<RunId>)
    requires Chain(log)
    requires var from := Some(log[|log| - 1].to); Table(from, a).Some?
    ensures var from := Some(log[|log| - 1].to);
            var t := Table(from, a).value;
            Chain(log + [LogRow(from, t.to, t.cause, run)])
  {
    var from := Some(log[|log| - 1].to);
    var t := Table(from, a).value;
    var row := LogRow(from, t.to, t.cause, run);
    assert IsEntry(row);
  }

  predicate Live(s: State) {
    s.Active? || s.Watch?
  }

  // Row p proposes the coverage and nothing later up to i proposes it again.
  ghost predicate LastProposal(log: seq<LogRow>, p: nat, i: nat)
    requires i < |log|
  {
    p <= i && log[p].to.Proposed? && forall k | p < k <= i :: !log[k].to.Proposed?
  }

  // Where the log stands at row i: the proposal in force and, once they are due, the
  // delivery and the PM decision that followed it.
  lemma {:induction false} Milestones(log: seq<LogRow>, i: nat) returns (p: nat, d: nat, e: nat)
    requires Chain(log) && i < |log|
    ensures LastProposal(log, p, i)
    ensures log[i].to.DecisionPending? || Live(log[i].to) ==> p < d <= i && log[d].cause.ByDelivery?
    ensures Live(log[i].to) ==> d < e <= i && log[e].cause.ByPmDecision?
  {
    assert IsEntry(log[i]);
    if i == 0 || log[i].to.Proposed? {
      p, d, e := i, i, i;
    } else {
      p, d, e := Milestones(log, i - 1);
      if log[i].cause.ByDelivery? {
        d := i;
      } else if log[i].cause.ByPmDecision? {
        e := i;
      }
    }
  }

  // Every visit to active or watch is preceded, since the last proposal, by an initiation
  // delivery and then by a PM decision.
  lemma LiveWasDeliveredAndDecided(log: seq<LogRow>, i: nat)
    requires Chain(log) && i < |log| && Live(log[i].to)
    ensures exists p: nat, d: nat, e: nat ::
              LastProposal(log, p, i) && p < d < e <= i
              && log[d].cause.ByDelivery? && log[e].cause.ByPmDecision?
  {
    var p, d, e := Milestones(log, i);
    assert LastProposal(log, p, i) && p < d < e <= i
           && log[d].cause.ByDelivery? && log[e].cause.ByPmDecision?;
  }
}
