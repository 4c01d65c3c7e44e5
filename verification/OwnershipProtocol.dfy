/** Every run of the ownership protocol: spawns, exits, crashes, restarts and reused pids. */
module OwnershipProtocol {
  import opened Ownership

  /**
   * `runners` are the actors this controller process drives, with the records of their children; they vanish with
   * the process. `unreconciled` are the prior leases startup reconciliation still has to settle, one committed
   * statement each; `reconciled` says that the current process has finished it.
   */
  datatype State = State(db: Database, os: Processes, up: bool, instance: InstanceId, unreconciled: set<RepositoryId>, reconciled: bool,
                         runners: map<RepositoryId, set<RecordId>>, nextIncarnation: Incarnation, nextRecord: RecordId)

  datatype Action =
    | Start(repository: RepositoryId)
    | SpawnRecorded(repository: RepositoryId, pid: Pid, evidence: Evidence)
    | MarkActive(repository: RepositoryId)
    | SpawnUnrecorded(repository: RepositoryId, pid: Pid)
    | ProcessEnds(pid: Pid)
    | ForeignProcessStarts(pid: Pid)
    | ChildExitHandled(repository: RepositoryId, record: RecordId, killed: bool)
    | ActorReleased(repository: RepositoryId)
    | ActorQuarantined(repository: RepositoryId)
    | Crash
    | CrashInsideRelease(repository: RepositoryId)
    | RestartController
    | ReconcileLease(repository: RepositoryId, probe: Record -> Verdict)
    | FinishReconciliation

  const INITIAL := State(Database(map[], map[]), map[], false, 0, {}, false, map[], 0, 0)

  /** When an action can happen. Exit events arrive after the exit, and a probe never calls a running record dead. */
  ghost predicate Enabled(s: State, a: Action) {
    match a
    case Start(repository) => s.up && s.reconciled && repository !in s.runners
    case SpawnRecorded(repository, pid, _) => s.up && repository in s.runners && pid !in s.os
    case MarkActive(repository) => s.up && repository in s.runners
    case SpawnUnrecorded(repository, pid) => s.up && repository in s.runners && pid !in s.os
    case ProcessEnds(pid) => pid in s.os
    case ForeignProcessStarts(pid) => pid !in s.os
    case ChildExitHandled(repository, record, _) =>
      s.up && repository in s.runners && record in s.runners[repository] && record in s.db.records && !Alive(s.os, s.db.records[record])
    case ActorReleased(repository) => s.up && repository in s.runners
    case ActorQuarantined(repository) => s.up && repository in s.runners
    case Crash => s.up
    case CrashInsideRelease(repository) => s.up && repository in s.runners && MayRelease(s.db, repository, s.instance)
    case RestartController => !s.up
    case ReconcileLease(repository, probe) => s.up && repository in s.unreconciled && SoundProbe(s.os, probe)
    case FinishReconciliation => s.up && s.unreconciled == {}
  }

  function Step(s: State, a: Action): State {
    match a
    case Start(repository) =>
      if AcquireResult(s.db, repository).Acquired? then
        s.(db := WithAcquire(s.db, repository, s.instance), runners := s.runners[repository := {}])
      else s
    case SpawnRecorded(repository, pid, evidence) =>
      if repository !in s.runners then s
      else
        var r := Record(repository, pid, s.nextIncarnation, evidence, RUNNING);
        s.(db := s.db.(records := s.db.records[s.nextRecord := r]),
           os := s.os[pid := s.nextIncarnation],
           runners := s.runners[repository := s.runners[repository] + {s.nextRecord}],
           nextIncarnation := s.nextIncarnation + 1, nextRecord := s.nextRecord + 1)
    case MarkActive(repository) => s.(db := WithState(s.db, repository, ACTIVE))
    case SpawnUnrecorded(repository, pid) =>
      s.(db := WithState(s.db, repository, QUARANTINED), os := s.os[pid := s.nextIncarnation],
         runners := s.runners - {repository}, nextIncarnation := s.nextIncarnation + 1)
    case ProcessEnds(pid) => s.(os := s.os - {pid})
    case ForeignProcessStarts(pid) => s.(os := s.os[pid := s.nextIncarnation], nextIncarnation := s.nextIncarnation + 1)
    case ChildExitHandled(_, record, killed) =>
      if record !in s.db.records then s
      else s.(db := s.db.(records := s.db.records[record := s.db.records[record].(state := if killed then KILL_CONFIRMED else EXITED)]))
    case ActorReleased(repository) =>
      s.(db := WithRelease(s.db, repository, s.instance), runners := s.runners - {repository})
    case ActorQuarantined(repository) =>
      s.(db := WithState(s.db, repository, QUARANTINED), runners := s.runners - {repository})
    case Crash => s.(up := false, unreconciled := {}, reconciled := false, runners := map[])
    case CrashInsideRelease(repository) =>
      s.(db := WithState(s.db, repository, RELEASING), up := false, unreconciled := {}, reconciled := false, runners := map[])
    case RestartController => s.(up := true, instance := s.instance + 1, unreconciled := s.db.leases.Keys)
    case ReconcileLease(repository, probe) =>
      s.(db := WithReconciledLease(s.db, probe, repository), unreconciled := s.unreconciled - {repository})
    case FinishReconciliation => s.(reconciled := true)
  }

  /** A run is a list of actions, each of which could happen when it did. */
  ghost predicate Possible(actions: seq<Action>) {
    actions == [] || (Possible(actions[..|actions| - 1]) && Enabled(Run(actions[..|actions| - 1]), actions[|actions| - 1]))
  }

  function Run(actions: seq<Action>): State {
    if actions == [] then INITIAL else Step(Run(actions[..|actions| - 1]), actions[|actions| - 1])
  }

  // ---------- Invariant ----------

  ghost predicate NoLiveChild(s: State, repository: RepositoryId) {
    forall id | id in s.db.records && s.db.records[id].repository == repository :: !Alive(s.os, s.db.records[id])
  }

  ghost predicate Invariant(s: State) {
    && (forall repository | repository !in s.db.leases :: NoLiveChild(s, repository))
    && (forall id | id in s.db.records && Terminal(s.db.records[id]) :: !Alive(s.os, s.db.records[id]))
    && (forall id | id in s.db.records :: s.db.records[id].incarnation < s.nextIncarnation && id < s.nextRecord)
    && (forall repository | repository in s.runners ::
          s.reconciled && repository in s.db.leases && s.db.leases[repository].instance == s.instance)
    && (forall repository | repository in s.db.leases :: s.db.leases[repository].instance <= s.instance)
    && (s.reconciled ==> s.up && s.unreconciled == {})
    && (forall repository | repository in s.unreconciled && repository in s.db.leases :: s.db.leases[repository].instance != s.instance)
    && (s.up ==> forall repository | repository in s.db.leases && repository !in s.unreconciled && s.db.leases[repository].instance != s.instance ::
          s.db.leases[repository].state.QUARANTINED?)
  }

  lemma StepKeepsInvariant(s: State, a: Action)
    requires Invariant(s) && Enabled(s, a)
    ensures Invariant(Step(s, a))
  {
    hide Invariant, Step;
    match a
    case ReconcileLease(repository, probe) => ReconcileKeepsInvariant(s, repository, probe);
    case SpawnRecorded(repository, pid, evidence) => SpawnKeepsInvariant(s, repository, pid, evidence);
    case ActorReleased(repository) => ReleaseKeepsInvariant(s, repository);
    case _ =>
      if a.ProcessEnds? || a.ForeignProcessStarts? || a.ChildExitHandled? {
        ProcessesKeepInvariant(s, a);
      } else if a.Crash? || a.CrashInsideRelease? || a.RestartController? || a.FinishReconciliation? {
        ControllerKeepsInvariant(s, a);
      } else {
        LeasesKeepInvariant(s, a);
      }
  }

  lemma ProcessesKeepInvariant(s: State, a: Action)
    requires Invariant(s) && Enabled(s, a) && (a.ProcessEnds? || a.ForeignProcessStarts? || a.ChildExitHandled?)
    ensures Invariant(Step(s, a))
  {
    var after := Step(s, a);
    forall r | r !in after.db.leases
      ensures NoLiveChild(after, r)
    {
      assert NoLiveChild(s, r);
    }
  }

  /** Crashes, restarts and the end of reconciliation. */
  lemma ControllerKeepsInvariant(s: State, a: Action)
    requires Invariant(s) && Enabled(s, a)
    requires a.Crash? || a.CrashInsideRelease? || a.RestartController? || a.FinishReconciliation?
    ensures Invariant(Step(s, a))
  {
    var after := Step(s, a);
    forall r | r !in after.db.leases
      ensures NoLiveChild(after, r)
    {
      assert NoLiveChild(s, r);
    }
  }

  lemma LeasesKeepInvariant(s: State, a: Action)
    requires Invariant(s) && Enabled(s, a)
    requires a.Start? || a.SpawnUnrecorded? || a.ActorQuarantined? || a.MarkActive?
    ensures Invariant(Step(s, a))
  {
    var after := Step(s, a);
    forall r | r !in after.db.leases
      ensures NoLiveChild(after, r)
    {
      assert NoLiveChild(s, r);
    }
  }

  lemma ReleaseKeepsInvariant(s: State, repository: RepositoryId)
    requires Invariant(s) && Enabled(s, ActorReleased(repository))
    ensures Invariant(Step(s, ActorReleased(repository)))
  {
  }

  lemma SpawnKeepsInvariant(s: State, repository: RepositoryId, pid: Pid, evidence: Evidence)
    requires Invariant(s) && Enabled(s, SpawnRecorded(repository, pid, evidence))
    ensures Invariant(Step(s, SpawnRecorded(repository, pid, evidence)))
  {
    var after := Step(s, SpawnRecorded(repository, pid, evidence));
    forall r | r !in after.db.leases ensures NoLiveChild(after, r) {
      assert NoLiveChild(s, r) && r != repository;
    }
  }

  lemma ReconcileKeepsInvariant(s: State, repository: RepositoryId, probe: Record -> Verdict)
    requires Invariant(s) && Enabled(s, ReconcileLease(repository, probe))
    ensures Invariant(Step(s, ReconcileLease(repository, probe)))
  {
    var after := Step(s, ReconcileLease(repository, probe));
    forall r | r !in after.db.leases
      ensures NoLiveChild(after, r)
    {
      if r in s.db.leases {
        assert ReleasedAtStartup(s.db, probe, r);
        forall id | id in s.db.records && s.db.records[id].repository == r ensures !Alive(s.os, s.db.records[id]) {
          assert IsProcessReleasable(ClassifyRecord(probe, s.db.records[id]));
        }
      } else {
        assert NoLiveChild(s, r);
      }
    }
  }

  lemma {:induction false} EveryRunKeepsInvariant(actions: seq<Action>)
    requires Possible(actions)
    ensures Invariant(Run(actions))
  {
    if actions != [] {
      EveryRunKeepsInvariant(actions[..|actions| - 1]);
      StepKeepsInvariant(Run(actions[..|actions| - 1]), actions[|actions| - 1]);
    }
  }

  // ---------- Consequences ----------

  /** A start that gets the lease finds no recorded child of the repository running. */
  lemma AcquireNeverOverlapsLiveChild(actions: seq<Action>, repository: RepositoryId)
    requires Possible(actions)
    ensures AcquireResult(Run(actions).db, repository).Acquired? ==> NoLiveChild(Run(actions), repository)
  {
    EveryRunKeepsInvariant(actions);
  }

  /** While a recorded child runs, its repository is leased, and only the owner's process or a quarantine holds it. */
  lemma LiveChildIsLeased(actions: seq<Action>, id: RecordId)
    requires Possible(actions) && Run(actions).reconciled
    requires id in Run(actions).db.records && Alive(Run(actions).os, Run(actions).db.records[id])
    ensures var s := Run(actions);
            var repository := s.db.records[id].repository;
            repository in s.db.leases
            && (s.db.leases[repository].instance == s.instance || s.db.leases[repository].state.QUARANTINED?)
  {
    EveryRunKeepsInvariant(actions);
  }

  /** After reconciliation every lease left by an earlier process is quarantined. */
  lemma PriorLeasesQuarantined(actions: seq<Action>, repository: RepositoryId)
    requires Possible(actions) && Run(actions).reconciled
    requires repository in Run(actions).db.leases && Run(actions).db.leases[repository].instance != Run(actions).instance
    ensures Run(actions).db.leases[repository].state.QUARANTINED?
  {
    EveryRunKeepsInvariant(actions);
  }

  /** No worktree is reclaimed while a recorded child of its repository runs. */
  lemma ReclaimNeverHitsLiveChild(actions: seq<Action>, probe: Record -> Verdict, repository: RepositoryId)
    requires Possible(actions) && SoundProbe(Run(actions).os, probe)
    requires !ReclaimBlocked(Run(actions).db, probe, repository)
    ensures NoLiveChild(Run(actions), repository)
  {
    EveryRunKeepsInvariant(actions);
    ReclaimIsSafe(Run(actions).db, Run(actions).os, probe, repository);
  }

  /**
   * The guard for a lease without records is spent by one restart: the first reconciliation quarantines it, and
   * the next one releases it although nothing was learnt about the spawn.
   */
  lemma RecordlessQuarantineLastsOneRestart(db: Database, probe: Record -> Verdict, repository: RepositoryId,
                                            first: InstanceId, second: InstanceId)
    requires repository in db.leases && db.leases[repository].instance != first && db.leases[repository].instance != second
    requires db.leases[repository].state.STARTING? || db.leases[repository].state.ACTIVE?
    requires forall id | id in db.records :: db.records[id].repository != repository
    ensures var once := WithReconciliation(db, probe, first);
            && repository in once.leases && once.leases[repository].state.QUARANTINED?
            && repository !in WithReconciliation(once, probe, second).leases
  {
  }
}
