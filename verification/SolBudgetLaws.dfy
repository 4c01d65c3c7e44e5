/** What each browser event, timeout check and restart does to a Sol operation, by what it finds in memory and in the store. */
module SolBudgetLaws {
  import opened SolBudget
  import opened Wrappers

  /** The operation is at work, its wake is not known to be busy, and its deadline has passed. */
  predicate Overdue(s: State, op: Operation, now: int) {
    op.status == ACTIVE && op.wakeId !in s.busy && op.deadline <= now
  }

  /** The operation with its one retry spent and a new deadline. */
  function Again(op: Operation, now: int): Operation {
    Operation(op.wakeId, op.intent, now + op.completionWait, op.completionWait, op.timeoutRetries + 1, op.status)
  }

  function WithStatus(op: Operation, status: Status): Operation {
    Operation(op.wakeId, op.intent, op.deadline, op.completionWait, op.timeoutRetries, status)
  }

  /** The wake was resubmitted, in memory and in the store. */
  predicate ResubmittedTo(s: State, t: State, op: Operation, now: int) {
    t == s.(memory := Some(Again(op, now)), durable := Some(Again(op, now)), resubmitted := s.resubmitted + [op.wakeId])
  }

  /** The operation left memory, and its row, if there is one, says STALLED. */
  predicate StalledTo(s: State, t: State) {
    && t == s.(memory := None, durable := t.durable)
    && match s.durable
       case None => t.durable == None
       case Some(op) => t.durable == Some(WithStatus(op, STALLED))
  }

  /** A check resubmits an overdue operation that has its retry left, stalls an overdue one that has not, and nothing else. */
  lemma CheckLaw(s: State, now: int, t: State)
    requires t == Step(s, CheckTimeouts(now))
    ensures match s.memory
      case None => t == s
      case Some(op) =>
        if !Overdue(s, op, now) then t == s
        else if op.timeoutRetries == 0 then ResubmittedTo(s, t, op, now)
        else StalledTo(s, t)
  {
  }

  /**
   * Over every run, restarts included: the check that finds an operation overdue resubmits its wake if and only if that
   * wake was never resubmitted for a timeout, and stalls it if and only if it was.
   */
  lemma ExpiryLaw(actions: seq<Action>, now: int)
    requires Run(actions).memory.Some? && Overdue(Run(actions), Run(actions).memory.value, now)
    ensures var s, t := Run(actions), Step(Run(actions), CheckTimeouts(now));
            var op := s.memory.value;
            && (op.wakeId !in s.resubmitted <==> ResubmittedTo(s, t, op, now))
            && (op.wakeId in s.resubmitted <==> StalledTo(s, t))
  {
    var s := Run(actions);
    AtMostOneResubmission(actions, s.memory.value.wakeId);
    CheckLaw(s, now, Step(s, CheckTimeouts(now)));
    assert s.memory.value.wakeId in s.resubmitted <==> Times(s.resubmitted, s.memory.value.wakeId) > 0;
  }

  /**
   * After a restart the stored operation of a run that still awaits Sol comes back: as it is if it is busy or has time left,
   * resubmitted if it is overdue with its retry left, and stalled if it is overdue without. A resubmission that fails and
   * has no time left stalls too. Nothing happens to a row that is not at work, or when an operation is in memory.
   */
  lemma RehydrateLaw(s: State, now: int, awaitingSol: bool, retryOk: bool, t: State)
    requires t == Step(s, Rehydrate(now, awaitingSol, retryOk))
    ensures if s.memory.Some? || s.durable.None? || !awaitingSol || s.durable.value.status != ACTIVE then t == s
            else
              var op := s.durable.value;
              if !Overdue(s, op, now) then t == s.(memory := Some(op))
              else if op.timeoutRetries > 0 then StalledTo(s, t)
              else if retryOk || op.completionWait > 0 then ResubmittedTo(s, t, op, now)
              else t == s.(memory := None, durable := Some(WithStatus(Again(op, now), STALLED)), resubmitted := s.resubmitted + [op.wakeId])
  {
  }

  /** A wake whose intent is the stored one's, still at work, goes on with its operation; any other gets one of its own. */
  lemma BeginLaw(s: State, intent: Intent, now: int, wait: nat, locked: bool, t: State)
    requires t == Step(s, BeginSubmit(intent, now, wait, locked))
    ensures t.durable.Some? && t.durable.value.intent == intent && t.durable.value.status == ACTIVE
    ensures if s.durable.Some? && s.durable.value.intent == intent && s.durable.value.status == ACTIVE then
              t.durable == s.durable && t.memory == s.memory && t.nextWake == s.nextWake
            else
              t.durable == Some(Operation(s.nextWake, intent, now + wait, wait, 0, ACTIVE)) && t.memory == t.durable && t.nextWake == s.nextWake + 1
    ensures t.resubmitted == s.resubmitted
    ensures if locked then t.busy == s.busy + {t.durable.value.wakeId} && t.inFlight == s.inFlight
            else t.busy == s.busy && t.inFlight == s.inFlight + multiset{t.durable.value.wakeId}
  {
  }

  /** The answer to a submission in flight: its wake is busy if and only if Sol was, and the stored operation stalls if it failed. */
  lemma FinishLaw(s: State, wakeId: nat, outcome: WakeOutcome, t: State)
    requires t == Step(s, FinishSubmit(wakeId, outcome))
    ensures s.inFlight[wakeId] == 0 ==> t == s
    ensures s.inFlight[wakeId] > 0 ==>
      && t == s.(memory := t.memory, durable := t.durable, busy := t.busy, inFlight := t.inFlight)
      && t.inFlight == s.inFlight[wakeId := s.inFlight[wakeId] - 1]
      && (wakeId in t.busy <==> outcome.Busy?) && (forall w | w != wakeId :: w in t.busy <==> w in s.busy)
      && match s.durable
         case None => t.durable == None && t.memory == s.memory
         case Some(op) => t.durable == Some(WithStatus(op, if outcome.Failed? then STALLED else ACTIVE)) && t.memory == t.durable
  {
  }

  /** The correlated signal finishes the operation in memory and its row; a restart forgets what was only in memory. */
  lemma CompleteLaw(s: State, correlated: bool, rowDeleted: bool)
    ensures var t := Step(s, Complete(correlated, rowDeleted));
      if s.memory.None? || !correlated then t == s
      else
        && t == s.(memory := None, durable := t.durable)
        && t.durable == if rowDeleted || s.durable.None? then None else Some(WithStatus(s.durable.value, FINISHED))
    ensures Step(s, Restart) == s.(memory := None, inFlight := multiset{})
  {
  }
}
