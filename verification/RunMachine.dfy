// The run and stage state machines (core/domain/run_sm.py).
module RunMachine {
  import opened Domain

  datatype RunAction = Start | Requeue | Fail | OpenGate | Succeed | Cancel

  datatype RunEffect = OpenPmGate | RecordTransientError | ReleaseLock | EmitRunFinished

  datatype RunChange = RunChange(to: RunStatus, effects: seq<RunEffect>)

  function RunEntry(state: RunStatus, action: RunAction): Option<RunStatus> {
    match (state, action)
    case (Queued, Start) => Some(RunStatus.Running)
    case (Running, Requeue) => Some(RunStatus.Queued)
    case (Running, Fail) => Some(RunStatus.Failed)
    case (Running, OpenGate) => Some(WaitingPm)
    case (Running, Succeed) => Some(RunStatus.Succeeded)
    case (Running, Cancel) => Some(Cancelled)
    case (WaitingPm, Succeed) => Some(RunStatus.Succeeded)
    case (WaitingPm, Cancel) => Some(Cancelled)
    case (Queued, Cancel) => Some(Cancelled)
    case _ => None
  }

  // None stands for a raised IllegalStateChange.
  function RunTransition(state: RunStatus, action: RunAction, attempts: int, maxAttempts: int): Option<RunChange> {
    var entry := RunEntry(state, action);
    if entry.None? then None
    else if action.Requeue? && attempts >= maxAttempts then None
    else
      var gate := if action.OpenGate? then [OpenPmGate] else [];
      var transient := if action.Requeue? then [RecordTransientError] else [];
      var terminal := if RunTerminal(entry.value) then [ReleaseLock, EmitRunFinished] else [];
      Some(RunChange(entry.value, gate + transient + terminal))
  }

  datatype StageAction = StartStage | Complete | FailRetryable | FailTerminal | Skip

  datatype StageChange = StageChange(to: StageStatus, setsBackoff: bool)

  function StageTransition(
    state: StageStatus, action: StageAction, attempts: int, maxAttempts: int): Option<StageChange>
  {
    match (state, action)
    case (Queued, StartStage) => Some(StageChange(StageStatus.Running, false))
    case (Running, Complete) => Some(StageChange(StageStatus.Succeeded, false))
    case (Running, FailRetryable) =>
      if attempts >= maxAttempts then None else Some(StageChange(StageStatus.Queued, true))
    case (Running, FailTerminal) => Some(StageChange(StageStatus.Failed, false))
    case (Queued, Skip) => Some(StageChange(Skipped, false))
    case _ => None
  }

  // The lock is released and run.finished emitted by exactly the terminal changes, a gate
  // is asked for by exactly the entry to waiting_pm, and a terminal run never moves again.
  lemma RunEffectsExact(state: RunStatus, action: RunAction, attempts: int, maxAttempts: int)
    ensures RunTerminal(state) ==> RunTransition(state, action, attempts, maxAttempts).None?
    ensures var c := RunTransition(state, action, attempts, maxAttempts);
            c.Some? ==>
              && (ReleaseLock in c.value.effects <==> RunTerminal(c.value.to))
              && (EmitRunFinished in c.value.effects <==> RunTerminal(c.value.to))
              && (OpenPmGate in c.value.effects <==> c.value.to.WaitingPm?)
  {
  }
}
