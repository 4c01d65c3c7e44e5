/** The handlers that can only leave a run alone or end it, short of its goal. */
module CampaignEndings {
  import opened CampaignState
  import opened Wrappers

  predicate SameOrEnded(before: Run, after: Run) {
    after == before || (IsTerminal(after.status) && !after.status.GOAL_COMPLETE?)
  }

  ghost predicate OnlyEnds(s: State, t: State) {
    |t.runs| == |s.runs| && forall r | 0 <= r < |s.runs| :: SameOrEnded(s.runs[r], t.runs[r])
  }

  lemma SameRunsEnd(s: State, t: State)
    requires t.runs == s.runs
    ensures OnlyEnds(s, t)
  {
  }

  lemma RunEnds(s: State, t: State, r: RunId, run: Run)
    requires r < |s.runs| && t.runs == s.runs[r := run] && SameOrEnded(s.runs[r], run)
    ensures OnlyEnds(s, t)
  {
  }

  lemma EndsAt(s: State, t: State, r: RunId)
    requires OnlyEnds(s, t)
    ensures |t.runs| == |s.runs| && (r < |s.runs| ==> SameOrEnded(s.runs[r], t.runs[r]))
  {
  }

  lemma TransactEnds(s: State, key: Key, body: State, cut: bool)
    requires OnlyEnds(s, body)
    ensures OnlyEnds(s, Transact(s, key, body, cut))
  {
    hide OnlyEnds;
    SameRunsEnd(s, s);
    SameRunsEnd(s, Crashed(s.(intents := s.intents + {key})));
    TransactCommits(s, key, body, cut);
  }

  lemma TransactCommits(s: State, key: Key, body: State, cut: bool)
    requires OnlyEnds(s, body)
    ensures OnlyEnds(s, body.(intents := body.intents + {key}))
  {
  }

  lemma SettleEnds(s: State, t: State, r: RunId)
    requires r < |s.runs| && t.runs == s.runs
    ensures OnlyEnds(s, SettleDrain(t, r))
  {
    hide OnlyEnds;
    RunEnds(s, SettleDrain(t, r), r, SettleDrain(t, r).runs[r]);
  }

  lemma SettledControls(s: State, q: RunId)
    requires q < |s.runs|
    ensures SettleDrain(s, q).controls == s.controls
  {
  }

  lemma CompleteEnds(s: State, r: RunId, d: DispatchId, isCompleted: bool, terminal: LoopState, hasResult: bool, cut: bool)
    requires r < |s.runs| && IsTerminal(terminal) && !terminal.GOAL_COMPLETE?
    ensures OnlyEnds(s, CompleteIteration(s, r, d, isCompleted, terminal, hasResult, cut))
  {
    hide OnlyEnds, Transact, SettleDrain;
    var consumed := if hasResult then Consume(s, d) else s;
    if s.runs[r].status.DRAINING? {
      SettleEnds(s, consumed, r);
      TransactEnds(s, DispatchKey(d, if hasResult then COMPLETE_DRAIN else FAIL_DRAIN), SettleDrain(consumed, r), cut);
    } else if isCompleted {
      SameRunsEnd(s, Consume(s, d));
      TransactEnds(s, DispatchKey(d, COMPLETE), Consume(s, d), cut);
    } else {
      var failed := s.runs[r].(status := terminal, drain := NOT_DRAINING);
      RunEnds(s, WithRun(consumed, r, failed), r, failed);
      TransactEnds(s, DispatchKey(d, FailOperation(terminal)), WithRun(consumed, r, failed), cut);
    }
  }

  lemma ExecutorCompletedEnds(s: State, d: DispatchId, result: Option<ExecutorStatus>, cut: bool)
    ensures OnlyEnds(s, ExecutorCompleted(s, d, result, cut))
  {
    hide OnlyEnds, CompleteIteration;
    SameRunsEnd(s, s);
    var active := ActiveRun(s.runs);
    if active.Some? {
      var r := active.value;
      if s.runs[r].status.DRAINING? {
        CompleteEnds(s, r, d, false, RECOVERY_REQUIRED, result.Some?, cut);
      } else if result.None? {
        RunEnds(s, WithStatus(s, r, RECOVERY_REQUIRED), r, s.runs[r].(status := RECOVERY_REQUIRED));
      } else {
        var terminal := if result.value.EXECUTOR_BLOCKED? then BLOCKED else if result.value.EXECUTOR_NEEDS_HUMAN? then NEEDS_HUMAN else RECOVERY_REQUIRED;
        CompleteEnds(s, r, d, result.value.EXECUTOR_COMPLETED?, terminal, true, cut);
      }
    }
  }

  lemma PostflightBlockedEnds(s: State, r: RunId)
    ensures OnlyEnds(s, PostflightBlocked(s, r))
  {
    hide OnlyEnds;
    SameRunsEnd(s, s);
    if r < |s.runs| && (ExecutorActive(s.runs[r].status) || s.runs[r].status.DRAINING?) {
      RunEnds(s, PostflightBlocked(s, r), r, PostflightBlocked(s, r).runs[r]);
    }
  }

  lemma StrategyCompletedEnds(s: State, c: Completion, cut: bool)
    ensures OnlyEnds(s, StrategyCompleted(s, c, cut))
  {
    hide OnlyEnds, CompleteIteration, PostflightBlocked, IterationCompleted;
    SameRunsEnd(s, s);
    PostflightBlockedEnds(s, c.runId);
    var active := ActiveRun(s.runs);
    if active.Some? {
      var terminal := if c.status.STRATEGY_PARTIAL? || c.status.STRATEGY_BLOCKED? then BLOCKED else RECOVERY_REQUIRED;
      CompleteEnds(s, active.value, c.dispatch, c.status.STRATEGY_COMPLETED?, terminal, true, cut);
    }
  }

  lemma PostflightRetriedEnds(s: State, c: Completion, late: bool, cut: bool)
    ensures OnlyEnds(s, PostflightRetried(s, c, late, cut))
  {
    hide OnlyEnds, PostflightBlocked, IterationCompleted;
    SameRunsEnd(s, s);
    PostflightBlockedEnds(s, c.runId);
    var recorded := Transact(s, DispatchKey(c.dispatch, POSTFLIGHT_COMPLETE), Consume(s, c.dispatch), cut);
    SameRunsEnd(s, recorded);
    if c.runId < |s.runs| {
      var closed := s.runs[c.runId].(status := CEILING_REACHED, drain := NOT_DRAINING);
      RunEnds(s, WithRun(recorded, c.runId, closed).(ceilingPending := false), c.runId, closed);
    }
  }
}
