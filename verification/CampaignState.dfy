/** The durable and in-memory state of one repository's campaign loop, and what each handler does to it. */
module CampaignState {
  import opened Wrappers

  /** Runs are numbered in the order they were started. */
  type RunId = nat
  type DispatchId = string
  type ControlId = string

  datatype LoopState =
    | IDLE | SOL_PENDING | SOL_REVIEWING | EXECUTOR_PENDING | EXECUTING | GOAL_COMPLETE | BLOCKED | NEEDS_HUMAN | PAUSED
    | STOPPED | DRAINING | CEILING_REACHED | SOL_STALLED | ATTENTION_REQUIRED | EXECUTOR_UNAVAILABLE | RECOVERY_REQUIRED

  predicate IsTerminal(s: LoopState) {
    s.GOAL_COMPLETE? || s.BLOCKED? || s.NEEDS_HUMAN? || s.STOPPED? || s.CEILING_REACHED? || s.SOL_STALLED?
    || s.ATTENTION_REQUIRED? || s.EXECUTOR_UNAVAILABLE? || s.RECOVERY_REQUIRED?
  }

  predicate SolActive(s: LoopState) {
    s.SOL_PENDING? || s.SOL_REVIEWING?
  }

  predicate ExecutorActive(s: LoopState) {
    s.EXECUTOR_PENDING? || s.EXECUTING?
  }

  datatype DrainReason = NOT_DRAINING | USER_STOP | WALL_CLOCK_CEILING | ITERATION_CEILING

  datatype Run = Run(status: LoopState, iteration: nat, maxIterations: nat, activeDispatch: Option<DispatchId>, drain: DrainReason)

  datatype Strategy = SINGLE_AGENT | SWARM | DAG

  datatype Dispatch = Dispatch(runId: RunId, iteration: nat, strategy: Strategy, consumed: bool)

  datatype ControlStatus = Detected | Consumed | Rejected

  datatype Control = Control(ownRepository: bool, runId: RunId, iteration: nat, relatedDispatch: Option<DispatchId>, status: ControlStatus)

  datatype Decision = GoalComplete | DecideBlocked | DecideNeedsHuman | DecidePaused

  datatype Operation =
    | DISPATCH_START | DISPATCH_DRAIN | COMPLETE | POSTFLIGHT_COMPLETE | COMPLETE_DRAIN | FAIL_DRAIN
    | FAIL_BLOCKED | FAIL_NEEDS_HUMAN | FAIL_RECOVERY_REQUIRED

  /** The logical key of a transition intent. */
  datatype Key = DispatchKey(dispatch: DispatchId, operation: Operation) | ControlKey(control: ControlId)

  datatype StartRow = StartRow(runId: RunId, dispatch: DispatchId)

  /**
   * `running` says whether a controller process is up, `intents` are the recorded transition keys and `startRows` the
   * START_EXECUTION_ACTOR outbox rows. The last five fields only record history: the dispatches each run started, every
   * entry into the coordinator's start through a start row, the dispatches the executor was launched on, every applied
   * control, and the dispatches some publication of which was PUBLISHED and verified.
   */
  datatype State = State(running: bool, runs: seq<Run>, dispatches: map<DispatchId, Dispatch>, controls: map<ControlId, Control>,
                         intents: set<Key>, startRows: set<StartRow>, stopPending: bool, ceilingPending: bool,
                         started: seq<seq<DispatchId>>, entries: seq<DispatchId>, executed: set<DispatchId>,
                         applied: seq<ControlId>, published: set<DispatchId>)

  const INITIAL := State(true, [], map[], map[], {}, {}, false, false, [], [], {}, [], {})

  // ---------- Queries ----------

  function ActiveRun(runs: seq<Run>): (r: Option<RunId>)
    ensures r.Some? ==> r.value < |runs| && !IsTerminal(runs[r.value].status)
    ensures r.Some? ==> forall k | r.value < k < |runs| :: IsTerminal(runs[k].status)
    ensures r.None? ==> forall k | 0 <= k < |runs| :: IsTerminal(runs[k].status)
  {
    if runs == [] then None
    else if !IsTerminal(runs[|runs| - 1].status) then Some(|runs| - 1)
    else ActiveRun(runs[..|runs| - 1])
  }

  function LatestStalledRun(runs: seq<Run>): (r: Option<RunId>)
    ensures r.Some? ==> r.value < |runs| && runs[r.value].status.SOL_STALLED?
    ensures forall k | 0 <= k < |runs| && runs[k].status.SOL_STALLED? :: r.Some? && k <= r.value
  {
    if runs == [] then None
    else if runs[|runs| - 1].status.SOL_STALLED? then Some(|runs| - 1)
    else LatestStalledRun(runs[..|runs| - 1])
  }

  predicate IsStop(s: State, run: Run) {
    s.stopPending || run.drain.USER_STOP?
  }

  predicate IsCeiling(s: State, run: Run) {
    s.ceilingPending || run.drain.WALL_CLOCK_CEILING? || run.drain.ITERATION_CEILING?
  }

  predicate DrainPending(s: State, run: Run) {
    IsStop(s, run) || IsCeiling(s, run)
  }

  /** hasCompletedIterationFor: some intent other than the start ones names the dispatch. */
  predicate IterationCompleted(intents: set<Key>, d: DispatchId) {
    exists k | k in intents :: k.DispatchKey? && k.dispatch == d && !k.operation.DISPATCH_START? && !k.operation.DISPATCH_DRAIN?
  }

  // ---------- Steps shared by the handlers ----------

  function WithRun(s: State, r: RunId, run: Run): State
    requires r < |s.runs|
  {
    s.(runs := s.runs[r := run])
  }

  function WithStatus(s: State, r: RunId, status: LoopState): State
    requires r < |s.runs|
  {
    WithRun(s, r, s.runs[r].(status := status))
  }

  function Consume(s: State, d: DispatchId): State {
    if d in s.dispatches then s.(dispatches := s.dispatches[d := s.dispatches[d].(consumed := true)]) else s
  }

  /** A crash ends the process and loses what is only in memory. */
  function Crashed(s: State): State {
    s.(running := false, stopPending := false, ceilingPending := false)
  }

  /**
   * enqueueAndApply: a known key changes nothing; otherwise the intent is recorded and the body commits, unless
   * the process dies in between.
   */
  function Transact(s: State, key: Key, body: State, cut: bool): State {
    if key in s.intents then s
    else if cut then Crashed(s.(intents := s.intents + {key}))
    else body.(intents := body.intents + {key})
  }

  /** The run at the end of its drain: a ceiling outranks a stop, and an unexplained drain counts as a ceiling. */
  function DrainedRun(s: State, run: Run): Run {
    run.(status := if IsStop(s, run) && !IsCeiling(s, run) then STOPPED else CEILING_REACHED, drain := NOT_DRAINING)
  }

  /** The drain boundary. A stop that a ceiling outranked stays pending. */
  function SettleDrain(s: State, r: RunId): State
    requires r < |s.runs|
  {
    WithRun(s, r, DrainedRun(s, s.runs[r])).(ceilingPending := false, stopPending := s.stopPending && IsCeiling(s, s.runs[r]))
  }

  // ---------- Handlers ----------

  predicate Correlated(s: State, r: RunId, d: DispatchId)
    requires r < |s.runs|
  {
    d in s.dispatches && s.dispatches[d].runId == r && !s.dispatches[d].consumed && s.dispatches[d].iteration == s.runs[r].iteration + 1
  }

  function StartDispatch(s: State, r: RunId, d: DispatchId): State
    requires r < |s.runs| && d in s.dispatches
  {
    var run := s.runs[r].(status := EXECUTOR_PENDING, activeDispatch := Some(d), iteration := s.dispatches[d].iteration);
    WithRun(Consume(s, d), r, run).(startRows := s.startRows + {StartRow(r, d)},
                                    started := if r < |s.started| then s.started[r := s.started[r] + [d]] else s.started)
  }

  function DispatchDetected(s: State, d: DispatchId, ownershipFree: bool, cut: bool): State
  {
    var active := ActiveRun(s.runs);
    if active.None? || !Correlated(s, active.value, d) then s
    else
      var r, run := active.value, s.runs[active.value];
      if run.status.DRAINING? || DrainPending(s, run) then
        Transact(s, DispatchKey(d, DISPATCH_DRAIN), SettleDrain(Consume(s, d), r), cut)
      else if SolActive(run.status) && ownershipFree then
        Transact(s, DispatchKey(d, DISPATCH_START), StartDispatch(s, r, d), cut)
      else s
  }

  function FailOperation(terminal: LoopState): Operation {
    if terminal.BLOCKED? then FAIL_BLOCKED else if terminal.NEEDS_HUMAN? then FAIL_NEEDS_HUMAN else FAIL_RECOVERY_REQUIRED
  }

  function CompleteIteration(s: State, r: RunId, d: DispatchId, isCompleted: bool, terminal: LoopState, hasResult: bool, cut: bool): State
    requires r < |s.runs|
  {
    var consumed := if hasResult then Consume(s, d) else s;
    if s.runs[r].status.DRAINING? then
      Transact(s, DispatchKey(d, if hasResult then COMPLETE_DRAIN else FAIL_DRAIN), SettleDrain(consumed, r), cut)
    else if isCompleted then
      Transact(s, DispatchKey(d, COMPLETE), Consume(s, d), cut)
    else
      Transact(s, DispatchKey(d, FailOperation(terminal)),
               WithRun(consumed, r, s.runs[r].(status := terminal, drain := NOT_DRAINING)), cut)
  }

  datatype ExecutorStatus = EXECUTOR_COMPLETED | EXECUTOR_BLOCKED | EXECUTOR_NEEDS_HUMAN | EXECUTOR_FAILED

  function ExecutorCompleted(s: State, d: DispatchId, result: Option<ExecutorStatus>, cut: bool): State {
    var active := ActiveRun(s.runs);
    if active.None? then s
    else
      var r := active.value;
      if s.runs[r].status.DRAINING? then CompleteIteration(s, r, d, false, RECOVERY_REQUIRED, result.Some?, cut)
      else if result.None? then WithStatus(s, r, RECOVERY_REQUIRED)
      else
        var terminal := if result.value.EXECUTOR_BLOCKED? then BLOCKED else if result.value.EXECUTOR_NEEDS_HUMAN? then NEEDS_HUMAN else RECOVERY_REQUIRED;
        CompleteIteration(s, r, d, result.value.EXECUTOR_COMPLETED?, terminal, true, cut)
  }

  datatype StrategyStatus = STRATEGY_COMPLETED | STRATEGY_PARTIAL | STRATEGY_BLOCKED | STRATEGY_FAILED

  /** A finished strategy: its dispatch, the run of its record, and whether its publication is PUBLISHED and verified. */
  datatype Completion = Completion(dispatch: DispatchId, runId: RunId, status: StrategyStatus, confirmed: bool)

  function PostflightBlocked(s: State, r: RunId): State {
    if r >= |s.runs| then s
    else if ExecutorActive(s.runs[r].status) then WithStatus(s, r, RECOVERY_REQUIRED)
    else if s.runs[r].status.DRAINING? then
      WithRun(s, r, s.runs[r].(status := RECOVERY_REQUIRED, drain := NOT_DRAINING)).(ceilingPending := false, stopPending := false)
    else s
  }

  function StrategyCompleted(s: State, c: Completion, cut: bool): State {
    var active := ActiveRun(s.runs);
    if active.None? || IterationCompleted(s.intents, c.dispatch) then s
    else
      var r := active.value;
      if c.status.STRATEGY_COMPLETED? && !c.confirmed then PostflightBlocked(s, c.runId)
      else
        var terminal := if c.status.STRATEGY_PARTIAL? || c.status.STRATEGY_BLOCKED? then BLOCKED else RECOVERY_REQUIRED;
        CompleteIteration(s, r, c.dispatch, c.status.STRATEGY_COMPLETED?, terminal, true, cut)
  }

  /** The iteration and wall-clock gates in front of the wake that follows a successful retry. */
  function ContinueCompleted(s: State, r: RunId, pastDeadline: bool): State
    requires r < |s.runs|
  {
    if s.runs[r].iteration >= s.runs[r].maxIterations || pastDeadline then
      WithRun(s, r, s.runs[r].(status := CEILING_REACHED, drain := NOT_DRAINING)).(ceilingPending := false)
    else s
  }

  predicate ClosedToRetry(status: LoopState) {
    (IsTerminal(status) && !status.RECOVERY_REQUIRED?) || status.DRAINING?
  }

  /** One candidate of the retry sweep, after its publication was attempted again. */
  function PostflightRetried(s: State, c: Completion, pastDeadline: bool, cut: bool): State {
    if !c.confirmed then PostflightBlocked(s, c.runId)
    else if c.dispatch !in s.dispatches || IterationCompleted(s.intents, c.dispatch) || c.runId >= |s.runs| then s
    else if SolActive(s.runs[c.runId].status) || ExecutorActive(s.runs[c.runId].status) then s
    else
      var key := DispatchKey(c.dispatch, POSTFLIGHT_COMPLETE);
      var recorded := Transact(s, key, Consume(s, c.dispatch), cut);
      if cut || ClosedToRetry(s.runs[c.runId].status) then recorded else ContinueCompleted(recorded, c.runId, pastDeadline)
  }

  function DecidedState(decision: Decision): LoopState {
    match decision
    case GoalComplete => GOAL_COMPLETE
    case DecideBlocked => BLOCKED
    case DecideNeedsHuman => NEEDS_HUMAN
    case DecidePaused => PAUSED
  }

  /** The run a control acts on: the active one, or the latest stalled one if the control names it. */
  function ControlTarget(s: State, c: ControlId): Option<RunId>
    requires c in s.controls
  {
    var active := ActiveRun(s.runs);
    if active.Some? then active
    else if LatestStalledRun(s.runs) == Some(s.controls[c].runId) then LatestStalledRun(s.runs)
    else None
  }

  /** validateSolControl, with the run it is checked against. */
  predicate ControlValid(s: State, c: ControlId, decision: Decision, strategyActive: bool)
    requires c in s.controls
  {
    var control, target := s.controls[c], ControlTarget(s, c);
    && !strategyActive
    && control.ownRepository
    && target.Some? && target.value < |s.runs|
    && (ActiveRun(s.runs).None? ==> !decision.DecidePaused?)
    && control.runId == target.value
    && control.iteration == s.runs[target.value].iteration
    && (control.relatedDispatch.Some? ==> control.relatedDispatch == s.runs[target.value].activeDispatch)
  }

  function Reject(s: State, c: ControlId): State
    requires c in s.controls
  {
    s.(controls := s.controls[c := s.controls[c].(status := Rejected)])
  }

  function Apply(s: State, c: ControlId): State
    requires c in s.controls
  {
    s.(controls := s.controls[c := s.controls[c].(status := Consumed)], applied := s.applied + [c])
  }

  function ControlDetected(s: State, c: ControlId, decision: Decision, strategyActive: bool, cut: bool): State {
    if c !in s.controls || !s.controls[c].status.Detected? then s
    else if !ControlValid(s, c, decision, strategyActive) then Reject(s, c)
    else
      var r := ControlTarget(s, c).value;
      var run, stalled := s.runs[r], ActiveRun(s.runs).None?;
      if decision.GoalComplete? && !stalled && ExecutorActive(run.status) then Reject(s, c)
      else if stalled then
        Transact(s, ControlKey(c), Apply(WithRun(s, r, run.(status := DecidedState(decision), drain := NOT_DRAINING)), c), cut)
      else if DrainPending(s, run) then Transact(s, ControlKey(c), Apply(SettleDrain(s, r), c), cut)
      else if run.status.DRAINING? then s
      else Transact(s, ControlKey(c), Apply(WithStatus(s, r, DecidedState(decision)), c), cut)
  }

  predicate IsSingleAgent(s: State, d: DispatchId) {
    d in s.dispatches && s.dispatches[d].strategy.SINGLE_AGENT?
  }

  /** coordinator.start refuses during shutdown, gets under way, or is interrupted by a crash before it wrote EXECUTING. */
  datatype StartOutcome = Refused | Launched | Interrupted

  function EnterStart(s: State, r: RunId, d: DispatchId, outcome: StartOutcome): State
    requires r < |s.runs|
  {
    var entered := s.(entries := s.entries + [d]);
    match outcome
    case Refused => WithStatus(entered, r, EXECUTOR_UNAVAILABLE)
    case Interrupted => Crashed(entered)
    case Launched => WithStatus(entered, r, EXECUTING).(executed := if IsSingleAgent(s, d) then s.executed + {d} else s.executed)
  }

  /** The guards of deliverStartExecutionActor. */
  predicate Startable(s: State, row: StartRow, strategyRecorded: bool) {
    && row in s.startRows && row.runId < |s.runs|
    && s.runs[row.runId].status.EXECUTOR_PENDING? && s.runs[row.runId].activeDispatch == Some(row.dispatch)
    && !strategyRecorded
  }

  function StartDelivered(s: State, row: StartRow, strategyRecorded: bool, outcome: StartOutcome): State {
    if Startable(s, row, strategyRecorded) then EnterStart(s, row.runId, row.dispatch, outcome) else s
  }

  datatype WakeOutcome = Submitted | BusyRetry | BusyExhausted | WakeFailed

  /** The end of submitSolWakeForRun, after the browser answered or threw. */
  function WakeFinished(s: State, r: RunId, outcome: WakeOutcome, threw: bool, attention: bool): State {
    if r >= |s.runs| then s
    else
      var run := s.runs[r];
      if run.status.STOPPED? || run.status.CEILING_REACHED? || DrainPending(s, run) || (!threw && run.status.DRAINING?) then s
      else if threw && attention then WithStatus(s, r, ATTENTION_REQUIRED)
      else match outcome
        case Submitted => if threw then WithStatus(s, r, SOL_STALLED) else WithStatus(s, r, SOL_REVIEWING)
        case BusyRetry => if run.status.SOL_PENDING? then WithStatus(s, r, SOL_REVIEWING) else s
        case BusyExhausted => WithStatus(s, r, SOL_STALLED)
        case WakeFailed => WithStatus(s, r, SOL_STALLED)
  }

  function CeilingFired(s: State, strategyPaused: bool): State {
    var active := ActiveRun(s.runs);
    if active.None? then s
    else
      var r, run := active.value, s.runs[active.value];
      var draining := if run.status.DRAINING? then run else run.(status := DRAINING, drain := WALL_CLOCK_CEILING);
      if ExecutorActive(run.status) || SolActive(run.status) || strategyPaused then WithRun(s, r, draining).(ceilingPending := true)
      else WithRun(s, r, run.(status := CEILING_REACHED, drain := NOT_DRAINING)).(ceilingPending := false)
  }

  function StopRequested(s: State, strategyActive: bool): State {
    var active := ActiveRun(s.runs);
    if active.None? then s
    else
      var r, run := active.value, s.runs[active.value];
      if strategyActive then
        if run.status.DRAINING? then s else WithRun(s, r, run.(status := DRAINING, drain := USER_STOP))
      else if ExecutorActive(run.status) || SolActive(run.status) || run.status.DRAINING? then
        WithRun(s, r, run.(status := DRAINING, drain := USER_STOP)).(stopPending := true)
      else WithRun(s, r, run.(status := STOPPED, drain := NOT_DRAINING))
  }

  /**
   * The end of an emergency kill or of a shutdown. The run was active when it was read, before the wait for its
   * actor, and is written without being read again.
   */
  function Killed(s: State, r: RunId): State {
    if r < |s.runs| then WithStatus(s, r, RECOVERY_REQUIRED) else s
  }

  function PauseRequested(s: State, strategyActive: bool): State {
    var active := ActiveRun(s.runs);
    if active.None? then s
    else
      var run := s.runs[active.value];
      if run.status.PAUSED? || run.status.DRAINING? || DrainPending(s, run) || (!strategyActive && SolActive(run.status)) then s
      else WithStatus(s, active.value, PAUSED)
  }

  /** Without a live strategy the executor is launched on the run's active dispatch, whatever its strategy was. */
  predicate ResumeLaunches(s: State, strategyActive: bool) {
    var active := ActiveRun(s.runs);
    active.Some? && s.runs[active.value].status.PAUSED? && !strategyActive && s.runs[active.value].activeDispatch.Some?
  }

  function Resumed(s: State, strategyActive: bool, launched: bool): State {
    var active := ActiveRun(s.runs);
    if active.None? || !s.runs[active.value].status.PAUSED? then s
    else if strategyActive then WithStatus(s, active.value, EXECUTING)
    else if s.runs[active.value].activeDispatch.None? then s
    else if !launched then WithStatus(s, active.value, EXECUTOR_UNAVAILABLE)
    else WithStatus(s, active.value, EXECUTING).(executed := s.executed + {s.runs[active.value].activeDispatch.value})
  }

  datatype Recovery = RecoverRetry | RecoverStop | RecoverComplete

  /** Operator recovery of the latest run; a retry with postflight evidence goes to the retry sweep instead. */
  function Recovered(s: State, how: Recovery, postflightEvidence: bool): State {
    if s.runs == [] then s
    else
      var r := |s.runs| - 1;
      var status := s.runs[r].status;
      if !status.RECOVERY_REQUIRED? && !status.BLOCKED? && !status.NEEDS_HUMAN? && !status.ATTENTION_REQUIRED? then s
      else match how
        case RecoverStop => WithStatus(s, r, STOPPED)
        case RecoverComplete => WithStatus(s, r, GOAL_COMPLETE)
        case RecoverRetry => if postflightEvidence then s else WithStatus(s, r, SOL_PENDING)
  }

  /** The in-memory mirrors of a persisted drain. */
  function Mirrored(s: State): State {
    var active := ActiveRun(s.runs);
    if active.None? || !s.runs[active.value].status.DRAINING? then s
    else match s.runs[active.value].drain
      case USER_STOP => s.(stopPending := true)
      case NOT_DRAINING => s
      case _ => s.(ceilingPending := true)
  }

  /**
   * rehydrateWallClockCeilings: past the deadline the ceiling handler runs, and runs again unless the run was already
   * draining. No coordinator is wired yet, so no strategy is seen.
   */
  function Rehydrated(s: State, pastDeadline: bool): State {
    var active := ActiveRun(s.runs);
    if active.None? || !pastDeadline || s.runs[active.value].status.IDLE? then Mirrored(s)
    else
      var once := CeilingFired(Mirrored(s), false);
      if s.runs[active.value].status.DRAINING? then once else CeilingFired(once, false)
  }

  /** The decision StartupReconciler takes for the active run. */
  function Reconciled(s: State): State {
    var active := ActiveRun(s.runs);
    if active.Some? && ExecutorActive(s.runs[active.value].status) then WithStatus(s, active.value, RECOVERY_REQUIRED) else s
  }

  function StartedUp(s: State, pastDeadline: bool): State {
    Reconciled(Rehydrated(s.(running := true), pastDeadline))
  }

  // ---------- Everything that can happen ----------

  datatype Action =
    | RunStarts(maxIterations: nat)
    | DispatchArrives(dispatch: DispatchId, marker: Dispatch)
    | ControlArrives(control: ControlId, signal: Control)
    | OnDispatchDetected(dispatch: DispatchId, ownershipFree: bool, cut: bool)
    | OnExecutorCompleted(dispatch: DispatchId, result: Option<ExecutorStatus>, cut: bool)
    | Publishes(dispatch: DispatchId)
    | OnStrategyCompleted(completion: Completion, cut: bool)
    | RetriesPostflight(completion: Completion, pastDeadline: bool, cut: bool)
    | OnControlDetected(control: ControlId, decision: Decision, strategyActive: bool, cut: bool)
    | DeliversStart(row: StartRow, strategyRecorded: bool, start: StartOutcome)
    | LaunchFails(runId: RunId)
    | FinishesWake(runId: RunId, outcome: WakeOutcome, threw: bool, attention: bool)
    | SolTimesOut
    | NeedsAttention(runId: RunId)
    | CeilingTimer(strategyPaused: bool)
    | StopRun(strategyActive: bool)
    | KillRun(runId: RunId)
    | PauseRun(strategyActive: bool)
    | ResumeRun(strategyActive: bool, launched: bool)
    | RecoverRun(how: Recovery, postflightEvidence: bool)
    | ManualStart(runId: RunId, strategyActive: bool)
    | CrashController
    | StartUp(pastDeadline: bool)

  predicate ManualStartAllowed(s: State, r: RunId, strategyActive: bool) {
    && r < |s.runs| && !strategyActive && s.runs[r].activeDispatch.Some? && !ExecutorActive(s.runs[r].status)
    && !s.runs[r].status.DRAINING? && !s.runs[r].status.STOPPED? && !s.runs[r].status.CEILING_REACHED?
  }

  /** What the running controller does. */
  function Handled(s: State, a: Action): State
  {
    match a
    case RunStarts(max) =>
      if ActiveRun(s.runs).Some? then s
      else s.(runs := s.runs + [Run(SOL_PENDING, 0, max, None, NOT_DRAINING)], started := s.started + [[]])
    case DispatchArrives(d, marker) => if d in s.dispatches then s else s.(dispatches := s.dispatches[d := marker.(consumed := false)])
    case ControlArrives(c, signal) => if c in s.controls then s else s.(controls := s.controls[c := signal.(status := Detected)])
    case OnDispatchDetected(d, free, cut) => DispatchDetected(s, d, free, cut)
    case OnExecutorCompleted(d, result, cut) => ExecutorCompleted(s, d, result, cut)
    case Publishes(d) => s.(published := s.published + {d})
    case OnStrategyCompleted(c, cut) => StrategyCompleted(s, c, cut)
    case RetriesPostflight(c, late, cut) => PostflightRetried(s, c, late, cut)
    case OnControlDetected(c, decision, strategyActive, cut) => ControlDetected(s, c, decision, strategyActive, cut)
    case DeliversStart(row, recorded, start) => StartDelivered(s, row, recorded, start)
    case LaunchFails(r) => if r < |s.runs| then WithStatus(s, r, EXECUTOR_UNAVAILABLE) else s
    case FinishesWake(r, outcome, threw, attention) => WakeFinished(s, r, outcome, threw, attention)
    case SolTimesOut =>
      var active := ActiveRun(s.runs);
      if active.Some? && SolActive(s.runs[active.value].status) then WithStatus(s, active.value, SOL_STALLED) else s
    case NeedsAttention(r) => if r < |s.runs| then WithStatus(s, r, ATTENTION_REQUIRED) else s
    case CeilingTimer(paused) => CeilingFired(s, paused)
    case StopRun(strategyActive) => StopRequested(s, strategyActive)
    case KillRun(r) => Killed(s, r)
    case PauseRun(strategyActive) => PauseRequested(s, strategyActive)
    case ResumeRun(strategyActive, launched) => Resumed(s, strategyActive, launched)
    case RecoverRun(how, evidence) => Recovered(s, how, evidence)
    case ManualStart(r, strategyActive) => if ManualStartAllowed(s, r, strategyActive) then WithStatus(s, r, EXECUTING) else s
    case CrashController => Crashed(s)
    case StartUp(_) => s
  }

  /** A stopped controller can only be started, and a running one is not started twice. */
  function Step(s: State, a: Action): State
  {
    if s.running then Handled(s, a)
    else if a.StartUp? then StartedUp(s, a.pastDeadline)
    else s
  }

  /**
   * What the environment guarantees: a completion is only reported as confirmed after a publication of its dispatch was
   * PUBLISHED and verified, and the executor only reports dispatches it was launched on.
   */
  ghost predicate Enabled(s: State, a: Action) {
    match a
    case OnExecutorCompleted(d, _, _) => d in s.executed
    case OnStrategyCompleted(c, _) => c.confirmed ==> c.dispatch in s.published
    case RetriesPostflight(c, _, _) => c.confirmed ==> c.dispatch in s.published
    case _ => true
  }
}
