/** BrowserManager: the timeout budget of one repository's Sol operation, across restarts. */
module SolBudget {
  import opened Wrappers

  datatype Status = ACTIVE | STALLED | FINISHED

  /** A wake intent: the run and the message derived from it. */
  datatype Intent = Intent(runId: string, message: string)

  datatype Operation = Operation(wakeId: nat, intent: Intent, deadline: int, completionWait: nat, timeoutRetries: nat, status: Status)

  /**
   * `memory` is the in-process operation, `durable` the stored row, `busy` the wakes whose stored status is busy.
   * `inFlight` counts the submissions of each wake that wait for the browser; `resubmitted` lists every timeout-driven resubmission.
   */
  datatype State = State(memory: Option<Operation>, durable: Option<Operation>, busy: set<nat>,
                         inFlight: multiset<nat>, nextWake: nat, resubmitted: seq<nat>)

  datatype WakeOutcome = Submitted | Busy | Failed

  datatype Action =
    | BeginSubmit(intent: Intent, now: int, wait: nat, locked: bool)
    | FinishSubmit(wakeId: nat, outcome: WakeOutcome)
    | CheckTimeouts(now: int)
    | Rehydrate(now: int, awaitingSol: bool, retryOk: bool)
    | Complete(correlated: bool, rowDeleted: bool)
    | Restart

  const EMPTY_STATE := State(None, None, {}, multiset{}, 0, [])

  // ---------- Specification ----------

  predicate Reusable(s: State, intent: Intent) {
    s.durable.Some? && s.durable.value.intent == intent && s.durable.value.status.ACTIVE?
  }

  function Begun(s: State, intent: Intent, now: int, wait: nat, locked: bool): State {
    var s' := if Reusable(s, intent) then s
              else
                var op := Operation(s.nextWake, intent, now + wait, wait, 0, ACTIVE);
                s.(memory := Some(op), durable := Some(op), nextWake := s.nextWake + 1);
    var wakeId := s'.durable.value.wakeId;
    if locked then s'.(busy := s'.busy + {wakeId}) else s'.(inFlight := s'.inFlight + multiset{wakeId})
  }

  /** The row is re-read after the browser answered, so it may belong to a later wake or be gone. */
  function Finished(s: State, wakeId: nat, outcome: WakeOutcome): State {
    if wakeId !in s.inFlight then s
    else
      var op := if s.durable.Some? then Some(s.durable.value.(status := if outcome.Failed? then STALLED else ACTIVE)) else None;
      s.(inFlight := s.inFlight - multiset{wakeId},
         busy := if outcome.Busy? then s.busy + {wakeId} else s.busy - {wakeId},
         durable := op,
         memory := if op.Some? then op else s.memory)
  }

  predicate Expired(s: State, op: Operation, now: int) {
    op.wakeId !in s.busy && now >= op.deadline
  }

  function Retried(s: State, op: Operation, now: int): State {
    var next := op.(timeoutRetries := op.timeoutRetries + 1, deadline := now + op.completionWait);
    s.(memory := Some(next), durable := Some(next), resubmitted := s.resubmitted + [op.wakeId])
  }

  function Stalled(s: State): State {
    s.(memory := None, durable := if s.durable.Some? then Some(s.durable.value.(status := STALLED)) else None)
  }

  function Checked(s: State, now: int): State {
    if s.memory.None? || !s.memory.value.status.ACTIVE? || !Expired(s, s.memory.value, now) then s
    else if s.memory.value.timeoutRetries < 1 then Retried(s, s.memory.value, now)
    else Stalled(s)
  }

  function Rehydrated(s: State, now: int, awaitingSol: bool, retryOk: bool): State {
    if s.durable.None? || !s.durable.value.status.ACTIVE? || !awaitingSol || s.memory.Some? then s
    else
      var op := s.durable.value;
      if op.wakeId in s.busy || now < op.deadline then s.(memory := Some(op))
      else if op.timeoutRetries < 1 then
        var retried := Retried(s, op, now);
        if !retryOk && now >= retried.durable.value.deadline then Stalled(retried) else retried
      else Stalled(s)
  }

  function Completed(s: State, correlated: bool, rowDeleted: bool): State {
    if s.memory.None? || !correlated then s
    else s.(memory := None, durable := if rowDeleted || s.durable.None? then None else Some(s.durable.value.(status := FINISHED)))
  }

  function Step(s: State, a: Action): State {
    match a
    case BeginSubmit(intent, now, wait, locked) => Begun(s, intent, now, wait, locked)
    case FinishSubmit(wakeId, outcome) => Finished(s, wakeId, outcome)
    case CheckTimeouts(now) => Checked(s, now)
    case Rehydrate(now, awaitingSol, retryOk) => Rehydrated(s, now, awaitingSol, retryOk)
    case Complete(correlated, rowDeleted) => Completed(s, correlated, rowDeleted)
    case Restart => s.(memory := None, inFlight := multiset{})
  }

  function Run(actions: seq<Action>): State {
    if actions == [] then EMPTY_STATE else Step(Run(actions[..|actions| - 1]), actions[|actions| - 1])
  }

  // ---------- The budget holds over every run ----------

  function Times(log: seq<nat>, wakeId: nat): nat {
    multiset(log)[wakeId]
  }

  ghost predicate Invariant(s: State) {
    && (s.memory.Some? ==> s.durable == s.memory)
    && (s.durable.Some? ==> s.durable.value.wakeId < s.nextWake && s.durable.value.timeoutRetries <= 1
                            && Times(s.resubmitted, s.durable.value.wakeId) == s.durable.value.timeoutRetries)
    && (forall w: nat :: Times(s.resubmitted, w) <= 1)
    && (forall w: nat | w >= s.nextWake :: Times(s.resubmitted, w) == 0)
  }

  lemma StepKeepsInvariant(s: State, a: Action)
    requires Invariant(s)
    ensures Invariant(Step(s, a))
  {
    match a
    case CheckTimeouts(now) => ChecksKeepInvariant(s, a);
    case Rehydrate(now, awaitingSol, retryOk) => ChecksKeepInvariant(s, a);
    case _ =>
  }

  /** A retry is the one step that counts a resubmission, and it counts the retry too. */
  lemma ChecksKeepInvariant(s: State, a: Action)
    requires Invariant(s) && (a.CheckTimeouts? || a.Rehydrate?)
    ensures Invariant(Step(s, a))
  {
    if s.durable.Some? {
      ResubmissionCounted(s.resubmitted, s.durable.value.wakeId);
    }
    hide Times;
  }

  lemma ResubmissionCounted(log: seq<nat>, wakeId: nat)
    ensures forall w: nat :: Times(log + [wakeId], w) == Times(log, w) + if w == wakeId then 1 else 0
  {
  }

  /** One wake is resubmitted at most once for a timeout, whatever happens and however often the process restarts. */
  lemma {:induction false} AtMostOneResubmission(actions: seq<Action>, wakeId: nat)
    ensures Invariant(Run(actions))
    ensures Times(Run(actions).resubmitted, wakeId) <= 1
  {
    if actions != [] {
      AtMostOneResubmission(actions[..|actions| - 1], wakeId);
      StepKeepsInvariant(Run(actions[..|actions| - 1]), actions[|actions| - 1]);
    }
  }

  /** A wake that has been resubmitted is stalled by the next expired check that does not find it busy. */
  lemma SecondExpiryStalls(actions: seq<Action>, now: int)
    requires Run(actions).memory.Some? && Run(actions).memory.value.status.ACTIVE?
    requires Expired(Run(actions), Run(actions).memory.value, now)
    requires Run(actions).memory.value.wakeId in Run(actions).resubmitted
    ensures var after := Checked(Run(actions), now);
            after.memory.None? && after.durable.Some? && after.durable.value.status.STALLED?
            && after.durable.value.wakeId == Run(actions).memory.value.wakeId && after.resubmitted == Run(actions).resubmitted
  {
    var s := Run(actions);
    AtMostOneResubmission(actions, s.memory.value.wakeId);
    assert s.memory.value.wakeId in multiset(s.resubmitted);
  }

  /**
   * A stalled operation becomes active again exactly when a browser submission that was already in flight
   * completes; no rehydration, check or restart revives it.
   */
  lemma StalledRevivedOnlyByLateSubmission(actions: seq<Action>, a: Action)
    requires Run(actions).durable.Some? && Run(actions).durable.value.status.STALLED?
    ensures var s, after := Run(actions), Step(Run(actions), a);
            after.durable.Some? && after.durable.value.wakeId == s.durable.value.wakeId && after.durable.value.status.ACTIVE? <==>
            a.FinishSubmit? && a.wakeId in s.inFlight && !a.outcome.Failed?
  {
    AtMostOneResubmission(actions, 0);
  }

  // ---------- The manager ----------

  class BrowserManager {
    var memory: Option<Operation>
    var durable: Option<Operation>
    var busy: set<nat>
    var inFlight: multiset<nat>
    var nextWake: nat
    ghost var resubmitted: seq<nat>

    ghost function Now(): State
      reads this
    {
      State(memory, durable, busy, inFlight, nextWake, resubmitted)
    }

    constructor ()
      ensures Now() == EMPTY_STATE
    {
      memory, durable, busy, inFlight, nextWake := None, None, {}, multiset{}, 0;
      resubmitted := [];
    }

    /** submitSolWake up to the point where it waits for the browser. */
    method BeginSubmit(intent: Intent, now: int, wait: nat, locked: bool) returns (wakeId: nat)
      modifies this
      ensures Now() == Begun(old(Now()), intent, now, wait, locked)
      ensures durable.Some? && durable.value.wakeId == wakeId && durable.value.intent == intent && durable.value.status.ACTIVE?
    {
      if durable.None? || durable.value.intent != intent || !durable.value.status.ACTIVE? {
        var op := Operation(nextWake, intent, now + wait, wait, 0, ACTIVE);
        nextWake := nextWake + 1;
        durable := Some(op);
        memory := Some(op);
      } else {
        durable := Some(durable.value.(status := ACTIVE));
      }
      wakeId := durable.value.wakeId;
      if locked {
        busy := busy + {wakeId};
      } else {
        inFlight := inFlight + multiset{wakeId};
      }
    }

    /** The rest of submitSolWake, once the browser answered. */
    method FinishSubmit(wakeId: nat, outcome: WakeOutcome)
      modifies this
      ensures Now() == Finished(old(Now()), wakeId, outcome)
    {
      if wakeId !in inFlight { return; }
      inFlight := inFlight - multiset{wakeId};
      match outcome {
        case Submitted =>
          busy := busy - {wakeId};
          UpdateStatus(ACTIVE);
        case Busy =>
          UpdateStatus(ACTIVE);
          busy := busy + {wakeId};
        case Failed =>
          busy := busy - {wakeId};
          UpdateStatus(STALLED);
      }
      if durable.Some? {
        memory := durable;
      }
    }

    /** solStore.update: a missing row stays missing. */
    method UpdateStatus(status: Status)
      modifies this`durable
      ensures durable == if old(durable).Some? then Some(old(durable).value.(status := status)) else None
    {
      if durable.Some? {
        durable := Some(durable.value.(status := status));
      }
    }

    method CheckSolTimeouts(now: int)
      requires Invariant(Now())
      modifies this
      ensures Now() == Checked(old(Now()), now)
    {
      if memory.None? { return; }
      var op := memory.value;
      if op.status.STALLED? || op.status.FINISHED? { return; }
      if op.wakeId in busy { return; }
      if now >= op.deadline {
        if op.timeoutRetries < 1 {
          op := op.(timeoutRetries := op.timeoutRetries + 1, deadline := now + op.completionWait);
          memory := Some(op);
          durable := Some(durable.value.(timeoutRetries := op.timeoutRetries, deadline := op.deadline));
          resubmitted := resubmitted + [op.wakeId];
        } else {
          StallSolOperation();
        }
      }
    }

    method StallSolOperation()
      modifies this`memory, this`durable
      ensures Now() == Stalled(old(Now()))
    {
      memory := None;
      UpdateStatus(STALLED);
    }

    method RehydrateFromStore(now: int, awaitingSol: bool, retryOk: bool)
      modifies this
      ensures Now() == Rehydrated(old(Now()), now, awaitingSol, retryOk)
      ensures old(durable).Some? && old(durable).value.status.STALLED? ==> Now() == old(Now())
    {
      if durable.None? || !durable.value.status.ACTIVE? { return; }
      if !awaitingSol || memory.Some? { return; }
      var op := durable.value;
      if op.wakeId in busy {
        memory := Some(op);
        return;
      }
      if now >= op.deadline {
        if op.timeoutRetries < 1 {
          durable := Some(op.(timeoutRetries := op.timeoutRetries + 1, deadline := now + op.completionWait));
          memory := Some(op.(timeoutRetries := op.timeoutRetries + 1, deadline := now + op.completionWait));
          resubmitted := resubmitted + [op.wakeId];
          if !retryOk && now >= durable.value.deadline {
            StallSolOperation();
          }
        } else {
          StallSolOperation();
        }
        return;
      }
      memory := Some(op);
    }

    method CompleteSolOperation(correlated: bool, rowDeleted: bool)
      modifies this`memory, this`durable
      ensures Now() == Completed(old(Now()), correlated, rowDeleted)
    {
      if memory.None? || !correlated { return; }
      memory := None;
      UpdateStatus(FINISHED);
      if rowDeleted {
        durable := None;
      }
    }
  }
}
