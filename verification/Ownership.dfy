/** RepositoryActorLeaseService, its tables, and the process probe it trusts. */
module Ownership {
  import opened Wrappers

  type RepositoryId = string
  type InstanceId = nat
  type Pid = nat
  type Incarnation = nat
  type RecordId = nat

  datatype LeaseState = STARTING | ACTIVE | RELEASING | QUARANTINED

  datatype Lease = Lease(instance: InstanceId, state: LeaseState)

  datatype ProcessState = SPAWNING | RUNNING | EXITED | KILL_CONFIRMED | UNCERTAIN

  datatype Evidence = Evidence(startMarker: Option<string>, executableName: Option<string>)

  /** `incarnation` names the process the pid denoted at spawn; no code reads it. */
  datatype Record = Record(repository: RepositoryId, pid: Pid, incarnation: Incarnation, evidence: Evidence, state: ProcessState)

  type Leases = map<RepositoryId, Lease>
  type Records = map<RecordId, Record>

  /** The durable tables. The lease table is keyed by repository. */
  datatype Database = Database(leases: Leases, records: Records)

  // ---------- The probe ----------

  datatype Verdict = LIVE_MATCH | DEAD | PID_REUSED | UNKNOWN

  /** Processes by pid; a pid may be taken over by a new incarnation once its process ended. */
  type Processes = map<Pid, Incarnation>

  predicate Alive(os: Processes, r: Record) {
    r.pid in os && os[r.pid] == r.incarnation
  }

  predicate IsProcessReleasable(v: Verdict) {
    v.DEAD?
  }

  predicate HasEvidence(e: Evidence) {
    e.startMarker.Some? || e.executableName.Some?
  }

  /** PortableProcessProbe.classify: liveness by signal, identity by the evidence captured at spawn. */
  function ClassifyPortable(os: Processes, captures: map<Pid, Evidence>, r: Record): Verdict {
    if r.pid !in os then DEAD
    else if r.pid !in captures then UNKNOWN
    else if !HasEvidence(r.evidence) then UNKNOWN
    else if r.evidence == captures[r.pid] then LIVE_MATCH
    else PID_REUSED
  }

  datatype Query = Found(creationDate: string, name: string) | NotFound | QueryError

  /** WindowsProcessProbe.classify; `lower` is the lower-casing of executable names. */
  function ClassifyWindows(answer: Query, lower: string -> string, r: Record): Verdict {
    match answer
    case NotFound => DEAD
    case QueryError => UNKNOWN
    case Found(creationDate, name) =>
      if !HasEvidence(r.evidence) then UNKNOWN
      else if (r.evidence.startMarker.None? || r.evidence.startMarker.value == creationDate)
              && (r.evidence.executableName.None? || lower(r.evidence.executableName.value) == lower(name)) then LIVE_MATCH
      else PID_REUSED
  }

  /** DEAD is never said of a recorded process that still runs. */
  ghost predicate SoundProbe(os: Processes, probe: Record -> Verdict) {
    forall r | probe(r).DEAD? :: !Alive(os, r)
  }

  lemma PortableProbeIsSound(os: Processes, captures: map<Pid, Evidence>)
    ensures SoundProbe(os, (r: Record) => ClassifyPortable(os, captures, r))
  {
  }

  lemma WindowsProbeIsSound(os: Processes, query: Pid -> Query, lower: string -> string)
    requires forall pid | query(pid).NotFound? :: pid !in os
    ensures SoundProbe(os, (r: Record) => ClassifyWindows(query(r.pid), lower, r))
  {
  }

  /**
   * What a verdict is worth when evidence is: if what is captured of a pid belongs to the process it denotes, what was
   * recorded belongs to the recorded process, and evidence tells processes apart, then the probe says exactly whether the
   * recorded process runs, has ended, or had its pid taken over. Without a capture a live pid stays UNKNOWN.
   */
  lemma PortableProbeTellsProcesses(os: Processes, captures: map<Pid, Evidence>, evidence: Incarnation -> Evidence, r: Record)
    requires forall pid | pid in captures && pid in os :: captures[pid] == evidence(os[pid])
    requires r.evidence == evidence(r.incarnation) && HasEvidence(r.evidence)
    requires forall i, j :: evidence(i) == evidence(j) ==> i == j
    ensures var v := ClassifyPortable(os, captures, r);
            && (v.DEAD? <==> r.pid !in os)
            && (v.UNKNOWN? <==> r.pid in os && r.pid !in captures)
            && (v.LIVE_MATCH? <==> r.pid in captures && Alive(os, r))
            && (v.PID_REUSED? <==> r.pid in captures && r.pid in os && !Alive(os, r))
  {
  }

  /** The same for the Windows probe, whose evidence is the creation date; names are compared in lower case. */
  lemma WindowsProbeTellsProcesses(os: Processes, query: Pid -> Query, lower: string -> string,
                                   created: Incarnation -> string, name: Incarnation -> string, r: Record)
    requires forall pid :: query(pid) == QueryError || query(pid) == if pid in os then Found(created(os[pid]), name(os[pid])) else NotFound
    requires r.evidence == Evidence(Some(created(r.incarnation)), Some(name(r.incarnation)))
    requires forall i, j :: created(i) == created(j) ==> i == j
    ensures var v := ClassifyWindows(query(r.pid), lower, r);
            && (v.UNKNOWN? <==> query(r.pid).QueryError?)
            && (v.DEAD? <==> !query(r.pid).QueryError? && r.pid !in os)
            && (v.LIVE_MATCH? <==> !query(r.pid).QueryError? && Alive(os, r))
            && (v.PID_REUSED? <==> !query(r.pid).QueryError? && r.pid in os && !Alive(os, r))
  {
    assert query(r.pid) == QueryError || query(r.pid) == if r.pid in os then Found(created(os[r.pid]), name(os[r.pid])) else NotFound;
  }

  predicate Terminal(r: Record) {
    r.state.EXITED? || r.state.KILL_CONFIRMED?
  }

  function ClassifyRecord(probe: Record -> Verdict, r: Record): Verdict {
    if Terminal(r) then DEAD else probe(r)
  }

  // ---------- Specification of the service ----------

  datatype AcquireOutcome = Acquired | Conflict | Quarantined

  function AcquireResult(db: Database, repository: RepositoryId): AcquireOutcome {
    if repository !in db.leases then Acquired
    else if db.leases[repository].state.QUARANTINED? then Quarantined
    else Conflict
  }

  function WithAcquire(db: Database, repository: RepositoryId, instance: InstanceId): Database {
    if repository in db.leases then db else db.(leases := db.leases[repository := Lease(instance, STARTING)])
  }

  function WithState(db: Database, repository: RepositoryId, state: LeaseState): Database {
    if repository in db.leases then db.(leases := db.leases[repository := db.leases[repository].(state := state)]) else db
  }

  predicate AllTerminal(db: Database, repository: RepositoryId) {
    forall id | id in db.records && db.records[id].repository == repository :: Terminal(db.records[id])
  }

  /** Whether release lets the lease go, rather than quarantining it. */
  predicate MayRelease(db: Database, repository: RepositoryId, instance: InstanceId) {
    repository in db.leases && db.leases[repository].instance == instance && AllTerminal(db, repository)
  }

  function WithRelease(db: Database, repository: RepositoryId, instance: InstanceId): Database {
    if MayRelease(db, repository, instance) then db.(leases := db.leases - {repository})
    else WithState(db, repository, QUARANTINED)
  }

  /** Whether startup reconciliation lets a prior lease go. */
  predicate ReleasedAtStartup(db: Database, probe: Record -> Verdict, repository: RepositoryId)
    requires repository in db.leases
  {
    && ((forall id | id in db.records :: db.records[id].repository != repository) ==>
          !db.leases[repository].state.STARTING? && !db.leases[repository].state.ACTIVE?)
    && (forall id | id in db.records && db.records[id].repository == repository :: IsProcessReleasable(ClassifyRecord(probe, db.records[id])))
  }

  function WithReconciliation(db: Database, probe: Record -> Verdict, instance: InstanceId): Database {
    db.(leases := map r | r in db.leases && (db.leases[r].instance == instance || !ReleasedAtStartup(db, probe, r)) ::
          if db.leases[r].instance == instance then db.leases[r] else db.leases[r].(state := QUARANTINED))
  }

  /** The one statement reconciliation commits for a prior lease. */
  function WithReconciledLease(db: Database, probe: Record -> Verdict, repository: RepositoryId): Database {
    if repository !in db.leases then db
    else if ReleasedAtStartup(db, probe, repository) then db.(leases := db.leases - {repository})
    else WithState(db, repository, QUARANTINED)
  }

  /** Settling one prior lease at a time gives each of them what settling them together does, and touches no other. */
  lemma ReconciliationIsLeaseByLease(db: Database, probe: Record -> Verdict, instance: InstanceId, repository: RepositoryId, other: RepositoryId)
    requires repository in db.leases && db.leases[repository].instance != instance && other != repository
    ensures var one, all := WithReconciledLease(db, probe, repository), WithReconciliation(db, probe, instance);
            && (repository in one.leases <==> repository in all.leases)
            && (repository in one.leases ==> one.leases[repository] == all.leases[repository])
            && one.records == db.records && all.records == db.records
            && (other in one.leases <==> other in db.leases) && (other in db.leases ==> one.leases[other] == db.leases[other])
            && (other in db.leases ==> (ReleasedAtStartup(one, probe, other) <==> ReleasedAtStartup(db, probe, other)))
  {
    var one := WithReconciledLease(db, probe, repository);
    assert one.records == db.records;
    assert other in db.leases ==> other in one.leases && one.leases[other] == db.leases[other];
  }

  predicate ReclaimBlocked(db: Database, probe: Record -> Verdict, repository: RepositoryId) {
    exists id | id in db.records :: db.records[id].repository == repository && !IsProcessReleasable(ClassifyRecord(probe, db.records[id]))
  }

  /** A worktree is reclaimed only when the probe vouches for every open record of its repository. */
  lemma ReclaimIsSafe(db: Database, os: Processes, probe: Record -> Verdict, repository: RepositoryId)
    requires SoundProbe(os, probe)
    requires forall id | id in db.records && Terminal(db.records[id]) :: !Alive(os, db.records[id])
    requires !ReclaimBlocked(db, probe, repository)
    ensures forall id | id in db.records && db.records[id].repository == repository :: !Alive(os, db.records[id])
  {
  }

  // ---------- What each operation means ----------

  /** Nothing else changed. */
  ghost predicate OtherLeasesKept(before: Database, repository: RepositoryId, after: Database) {
    && after.records == before.records
    && forall r | r != repository :: (r in after.leases <==> r in before.leases) && (r in after.leases ==> after.leases[r] == before.leases[r])
  }

  /** A free repository is leased; a held one is refused, as quarantined or as a conflict, and keeps its lease. */
  ghost predicate AcquireExplained(before: Database, repository: RepositoryId, instance: InstanceId, outcome: AcquireOutcome, after: Database) {
    && OtherLeasesKept(before, repository, after)
    && (outcome.Acquired? <==> repository !in before.leases)
    && (outcome.Quarantined? <==> repository in before.leases && before.leases[repository].state.QUARANTINED?)
    && repository in after.leases
    && after.leases[repository] == if outcome.Acquired? then Lease(instance, STARTING) else before.leases[repository]
  }

  /**
   * The lease is gone afterwards if and only if there was none, or it was the caller's own and every process recorded
   * for this repository has exited or was killed; otherwise it stands quarantined.
   */
  ghost predicate ReleaseExplained(before: Database, repository: RepositoryId, instance: InstanceId, after: Database) {
    && OtherLeasesKept(before, repository, after)
    && (repository !in after.leases <==>
          repository !in before.leases
          || (before.leases[repository].instance == instance
              && forall id | id in before.records && before.records[id].repository == repository ::
                   before.records[id].state.EXITED? || before.records[id].state.KILL_CONFIRMED?))
    && (repository in after.leases ==> after.leases[repository] == before.leases[repository].(state := QUARANTINED))
  }

  /**
   * A lease of an earlier instance is gone if and only if each process recorded for its repository has exited, was killed
   * or is DEAD to the probe, and there is such a record or the lease was already being released or quarantined.
   */
  ghost predicate ReconciliationExplained(before: Database, probe: Record -> Verdict, instance: InstanceId, after: Database) {
    && after.records == before.records && after.leases.Keys <= before.leases.Keys
    && forall r | r in before.leases ::
         if before.leases[r].instance == instance then r in after.leases && after.leases[r] == before.leases[r]
         else
           && (r !in after.leases <==>
                 && (forall id | id in before.records && before.records[id].repository == r ::
                       before.records[id].state.EXITED? || before.records[id].state.KILL_CONFIRMED? || probe(before.records[id]).DEAD?)
                 && (before.leases[r].state.RELEASING? || before.leases[r].state.QUARANTINED?
                     || exists id :: id in before.records && before.records[id].repository == r))
           && (r in after.leases ==> after.leases[r] == before.leases[r].(state := QUARANTINED))
  }

  lemma AcquireIff(db: Database, repository: RepositoryId, instance: InstanceId)
    ensures AcquireExplained(db, repository, instance, AcquireResult(db, repository), WithAcquire(db, repository, instance))
  {
  }

  lemma ReleaseIff(db: Database, repository: RepositoryId, instance: InstanceId)
    ensures ReleaseExplained(db, repository, instance, WithRelease(db, repository, instance))
  {
  }

  lemma ReconciliationIff(db: Database, probe: Record -> Verdict, instance: InstanceId)
    ensures ReconciliationExplained(db, probe, instance, WithReconciliation(db, probe, instance))
  {
    forall r | r in db.leases && db.leases[r].instance != instance
      ensures ReleasedAtStartup(db, probe, r) <==>
                && (forall id | id in db.records && db.records[id].repository == r ::
                      db.records[id].state.EXITED? || db.records[id].state.KILL_CONFIRMED? || probe(db.records[id]).DEAD?)
                && (db.leases[r].state.RELEASING? || db.leases[r].state.QUARANTINED?
                    || exists id :: id in db.records && db.records[id].repository == r)
    {
      OwnRecordsReleasable(db, probe, r);
    }
    hide ReleasedAtStartup;
  }

  /** What becomes of a lease depends on that lease and on the records alone. */
  lemma SameLeaseSameVerdict(a: Database, b: Database, probe: Record -> Verdict, repository: RepositoryId)
    requires repository in a.leases && repository in b.leases && a.leases[repository] == b.leases[repository] && a.records == b.records
    ensures ReleasedAtStartup(a, probe, repository) <==> ReleasedAtStartup(b, probe, repository)
  {
  }

  lemma OwnRecordsReleasable(db: Database, probe: Record -> Verdict, repository: RepositoryId)
    ensures forall id | id in db.records :: IsProcessReleasable(ClassifyRecord(probe, db.records[id])) <==>
              db.records[id].state.EXITED? || db.records[id].state.KILL_CONFIRMED? || probe(db.records[id]).DEAD?
  {
  }

  // ---------- The service ----------

  class ActorLeaseService {
    var leases: Leases
    var records: Records

    ghost function Now(): Database
      reads this
    {
      Database(leases, records)
    }

    method Acquire(repository: RepositoryId, instance: InstanceId) returns (outcome: AcquireOutcome)
      modifies this`leases
      ensures outcome == AcquireResult(old(Now()), repository)
      ensures AcquireExplained(old(Now()), repository, instance, outcome, Now())
      ensures Now() == WithAcquire(old(Now()), repository, instance)
    {
      if repository in leases {
        var existing := leases[repository];
        if existing.state.QUARANTINED? { return Quarantined; }
        if existing.instance != instance || existing.state.ACTIVE? || existing.state.STARTING? { return Conflict; }
      }
      var inserted := Insert(repository, Lease(instance, STARTING));
      if !inserted {
        return if leases[repository].state.QUARANTINED? then Quarantined else Conflict;
      }
      return Acquired;
    }

    /** INSERT OR IGNORE on the repository key. */
    method Insert(repository: RepositoryId, lease: Lease) returns (inserted: bool)
      modifies this`leases
      ensures inserted <==> repository !in old(leases)
      ensures leases == if inserted then old(leases)[repository := lease] else old(leases)
    {
      inserted := repository !in leases;
      if inserted {
        leases := leases[repository := lease];
      }
    }

    method UpdateState(repository: RepositoryId, state: LeaseState)
      modifies this`leases
      ensures Now() == WithState(old(Now()), repository, state)
    {
      if repository in leases {
        leases := leases[repository := leases[repository].(state := state)];
      }
    }

    method Release(repository: RepositoryId, instance: InstanceId)
      modifies this`leases
      ensures Now() == WithRelease(old(Now()), repository, instance)
      ensures ReleaseExplained(old(Now()), repository, instance, Now())
    {
      ReleaseIff(Now(), repository, instance);
      hide ReleaseExplained;
      if repository !in leases { return; }
      if leases[repository].instance != instance {
        UpdateState(repository, QUARANTINED);
        return;
      }
      var open := records.Keys;
      while open != {}
        invariant leases == old(leases)
        invariant forall id | id in records && id !in open && records[id].repository == repository :: Terminal(records[id])
        decreases open
      {
        var id :| id in open;
        if id in records && records[id].repository == repository && !Terminal(records[id]) {
          UpdateState(repository, QUARANTINED);
          return;
        }
        open := open - {id};
      }
      UpdateState(repository, RELEASING);
      leases := leases - {repository};
    }

    method ReconcileOnStartup(instance: InstanceId, probe: Record -> Verdict)
      modifies this`leases
      ensures Now() == WithReconciliation(old(Now()), probe, instance)
      ensures ReconciliationExplained(old(Now()), probe, instance, Now())
    {
      ReconciliationIff(Now(), probe, instance);
      hide ReconciliationExplained, ReleasedAtStartup;
      var prior := set r | r in leases && leases[r].instance != instance;
      while prior != {}
        invariant forall r :: r in prior ==> r in old(leases) && old(leases)[r].instance != instance
        invariant forall r | r in prior || r !in old(leases) || old(leases)[r].instance == instance ::
                    (r in leases <==> r in old(leases)) && (r in old(leases) ==> r in leases && leases[r] == old(leases)[r])
        invariant forall r | r in old(leases) && old(leases)[r].instance != instance && r !in prior ::
                    if ReleasedAtStartup(old(Now()), probe, r) then r !in leases
                    else r in leases && leases[r] == old(leases)[r].(state := QUARANTINED)
        decreases prior
      {
        var repository :| repository in prior;
        SameLeaseSameVerdict(old(Now()), Now(), probe, repository);
        ReconcileLease(repository, probe);
        prior := prior - {repository};
      }
    }

    /** The body of the reconciliation loop: the one statement it commits for a prior lease. */
    method ReconcileLease(repository: RepositoryId, probe: Record -> Verdict)
      requires repository in leases
      modifies this`leases
      ensures Now() == WithReconciledLease(old(Now()), probe, repository)
    {
      var own := set id | id in records && records[id].repository == repository;
      if own == {} && (leases[repository].state.STARTING? || leases[repository].state.ACTIVE?) {
        assert forall id | id in records :: id !in own;
        UpdateState(repository, QUARANTINED);
      } else if exists id | id in own :: !IsProcessReleasable(ClassifyRecord(probe, records[id])) {
        UpdateState(repository, QUARANTINED);
      } else {
        assert forall id | id in records && records[id].repository == repository :: id in own;
        leases := leases - {repository};
      }
    }

    /** WorktreeIsolationService.isReclaimBlocked over the same records. */
    method IsReclaimBlocked(repository: RepositoryId, probe: Record -> Verdict) returns (blocked: bool)
      ensures blocked == ReclaimBlocked(Now(), probe, repository)
      ensures !blocked <==> forall id | id in records && records[id].repository == repository ::
                records[id].state.EXITED? || records[id].state.KILL_CONFIRMED? || probe(records[id]).DEAD?
    {
      var left := records.Keys;
      while left != {}
        invariant forall id | id in records && id !in left && records[id].repository == repository ::
                    IsProcessReleasable(ClassifyRecord(probe, records[id]))
        decreases left
      {
        var id :| id in left;
        if id in records && records[id].repository == repository && !Terminal(records[id]) {
          var verdict := probe(records[id]);
          if verdict.LIVE_MATCH? || verdict.UNKNOWN? || verdict.PID_REUSED? {
            return true;
          }
        }
        left := left - {id};
      }
      return false;
    }
  }
}
