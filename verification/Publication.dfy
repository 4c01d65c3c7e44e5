/** IntegrationService.publishToRemote: making integrated main durable on the remote. */
module Publication {
  import opened Wrappers

  /** One commit's change. A manifest records the commit it was made on, which is the history up to it. */
  datatype Patch = Work(id: string) | Manifest(dispatchId: string, finalCommitSha: History, stamp: int)

  /** A linear history, oldest patch first; a commit id stands for the whole history up to the commit. */
  type History = seq<Patch>

  /** The git and file commands of one publication; a failing query answers false or nothing. */
  datatype Command =
    | Status | HeadBefore | Fetch | RemoteHead | LocalIsAncestor | RemoteIsAncestor | FastForward | Rebase
    | HeadReconciled | WriteManifest | Add | Commit | HeadManifest | Push | Reset | HeadPushed
    | VerifyAncestor | VerifyManifest

  datatype Relation = UP_TO_DATE | LOCAL_AHEAD | REMOTE_AHEAD | DIVERGED

  datatype Blocker =
    | StatusUnavailable | DirtyCheckout | CannotReconcile | PushFailed | VerificationFailed | CommandFailed

  datatype PublishResult =
    | Published(pushedSha: History, resultSha: History)
    | Blocked(why: Blocker)

  // ---------- What reconciliation has to produce ----------

  /** Length of the shared history. */
  function MergeBase(a: History, b: History): (n: nat)
    ensures n <= |a| && n <= |b| && a[..n] == b[..n]
    ensures n < |a| && n < |b| ==> a[n] != b[n]
  {
    if a == [] || b == [] || a[0] != b[0] then 0
    else
      var n := MergeBase(a[1..], b[1..]);
      assert a[..n + 1] == [a[0]] + a[1..][..n] && b[..n + 1] == [b[0]] + b[1..][..n];
      n + 1
  }

  function Without(patches: History, upstream: History): History {
    if patches == [] then []
    else
      var kept := Without(patches[..|patches| - 1], upstream);
      if patches[|patches| - 1] in upstream then kept else kept + [patches[|patches| - 1]]
  }

  /** The local patches the upstream does not have, as git rebase replays them. */
  function LocalOnly(local: History, upstream: History): History {
    var base := MergeBase(local, upstream);
    Without(local[base..], upstream[base..])
  }

  function Rebased(local: History, upstream: History): History {
    upstream + LocalOnly(local, upstream)
  }

  function IsAncestor(fails: set<Command>, query: Command, ancestor: History, descendant: History): bool {
    query !in fails && ancestor <= descendant
  }

  function Classify(fails: set<Command>, local: History, remoteHead: History): Relation {
    if remoteHead == [] || remoteHead == local then UP_TO_DATE
    else if IsAncestor(fails, LocalIsAncestor, local, remoteHead) then REMOTE_AHEAD
    else if IsAncestor(fails, RemoteIsAncestor, remoteHead, local) then LOCAL_AHEAD
    else DIVERGED
  }

  /** Local main after reconciliation, or None when neither fast-forward nor rebase went through. */
  function Reconcile(fails: set<Command>, local: History, remoteHead: History): Option<History> {
    match Classify(fails, local, remoteHead)
    case UP_TO_DATE => Some(local)
    case LOCAL_AHEAD => Some(local)
    case REMOTE_AHEAD =>
      if FastForward !in fails then Some(remoteHead)
      else if Rebase !in fails then Some(Rebased(local, remoteHead))
      else None
    case DIVERGED => if Rebase !in fails then Some(Rebased(local, remoteHead)) else None
  }

  lemma {:induction false} MergeBaseOfPrefix(a: History, b: History)
    requires a <= b
    ensures MergeBase(a, b) == |a| && MergeBase(b, a) == |a|
  {
    if a != [] {
      MergeBaseOfPrefix(a[1..], b[1..]);
    }
  }

  lemma {:induction false} WithoutNothing(patches: History)
    ensures Without(patches, []) == patches
  {
    if patches != [] {
      WithoutNothing(patches[..|patches| - 1]);
    }
  }

  lemma LocalOnlyOfRelated(local: History, upstream: History)
    ensures local <= upstream ==> LocalOnly(local, upstream) == []
    ensures upstream <= local ==> upstream + LocalOnly(local, upstream) == local
  {
    if local <= upstream {
      MergeBaseOfPrefix(local, upstream);
      assert local[|local|..] == [];
    }
    if upstream <= local {
      MergeBaseOfPrefix(upstream, local);
      WithoutNothing(local[|upstream|..]);
      assert upstream[|upstream|..] == [] && upstream + local[|upstream|..] == local;
    }
  }

  /**
   * Whatever the ancestry queries answered, a successful reconciliation is the remote history followed by the
   * local-only patches.
   */
  lemma ReconcileIsRemoteThenLocalOnly(fails: set<Command>, local: History, remoteHead: History)
    requires Reconcile(fails, local, remoteHead).Some?
    ensures Reconcile(fails, local, remoteHead).value == remoteHead + LocalOnly(local, remoteHead)
  {
    LocalOnlyOfRelated(local, remoteHead);
    hide LocalOnly;
    match Classify(fails, local, remoteHead)
    case UP_TO_DATE => assert remoteHead <= local;
    case LOCAL_AHEAD =>
    case REMOTE_AHEAD => assert LocalOnly(local, remoteHead) == [];
    case DIVERGED =>
  }

  /** Every local patch survives: replayed exactly where it is local-only, and already upstream otherwise. */
  lemma {:induction false} WithoutKeepsInOrder(patches: History, upstream: History) returns (at: seq<nat>)
    ensures |at| == |Without(patches, upstream)|
    ensures forall k | 0 <= k < |at| :: at[k] < |patches| && patches[at[k]] == Without(patches, upstream)[k]
    ensures forall k, m | 0 <= k < m < |at| :: at[k] < at[m]
    ensures forall i | 0 <= i < |patches| :: i in at <==> patches[i] !in upstream
  {
    at := [];
    if patches != [] {
      var last := |patches| - 1;
      var before := WithoutKeepsInOrder(patches[..last], upstream);
      at := if patches[last] in upstream then before else before + [last];
      forall k | 0 <= k < |at|
        ensures at[k] < |patches| && patches[at[k]] == Without(patches, upstream)[k]
      {
        assert k < |before| ==> patches[..last][before[k]] == patches[before[k]];
      }
      forall i | 0 <= i < |patches|
        ensures i in at <==> patches[i] !in upstream
      {
        PositionKept(patches, upstream, before, i);
      }
    }
  }

  /** Adding the last position, if its patch is kept, makes the positions right for the whole list. */
  lemma PositionKept(patches: History, upstream: History, before: seq<nat>, i: nat)
    requires i < |patches|
    requires forall k | 0 <= k < |before| :: before[k] < |patches| - 1
    requires i < |patches| - 1 ==> (i in before <==> patches[..|patches| - 1][i] !in upstream)
    ensures var last := |patches| - 1;
            i in (if patches[last] in upstream then before else before + [last]) <==> patches[i] !in upstream
  {
  }

  /**
   * What a rebase replays: of the local patches behind the shared history, exactly those the upstream lacks behind it,
   * once each and in order. The shared history is as long as it can be.
   */
  lemma LocalOnlyExactly(local: History, upstream: History) returns (shared: nat, at: seq<nat>)
    ensures shared <= |local| && shared <= |upstream| && local[..shared] == upstream[..shared]
    ensures shared < |local| && shared < |upstream| ==> local[shared] != upstream[shared]
    ensures |at| == |LocalOnly(local, upstream)|
    ensures forall k | 0 <= k < |at| :: shared + at[k] < |local| && LocalOnly(local, upstream)[k] == local[shared + at[k]]
    ensures forall k, m | 0 <= k < m < |at| :: at[k] < at[m]
    ensures forall i | 0 <= i < |local| - shared :: i in at <==> local[shared + i] !in upstream[shared..]
  {
    shared := MergeBase(local, upstream);
    at := WithoutKeepsInOrder(local[shared..], upstream[shared..]);
    assert forall i | 0 <= i < |local| - shared :: local[shared..][i] == local[shared + i];
  }

  lemma NoLocalPatchLost(local: History, upstream: History)
    ensures forall p | p in local :: p in upstream + LocalOnly(local, upstream)
  {
    var base := MergeBase(local, upstream);
    var at := WithoutKeepsInOrder(local[base..], upstream[base..]);
    forall p | p in local ensures p in upstream + LocalOnly(local, upstream) {
      var i :| 0 <= i < |local| && local[i] == p;
      if i < base {
        assert upstream[..base][i] == p;
        assert upstream[i] == p;
      } else if p !in upstream[base..] {
        assert local[base..][i - base] == p;
        var k :| 0 <= k < |at| && at[k] == i - base;
        assert LocalOnly(local, upstream)[k] == p;
      }
    }
  }

  /** When local main can be put on top of the remote head. */
  predicate Reconcilable(fails: set<Command>, local: History, remoteHead: History) {
    || Rebase !in fails || remoteHead == [] || remoteHead == local
    || (local <= remoteHead && fails !! {LocalIsAncestor, FastForward})
    || (remoteHead <= local && RemoteIsAncestor !in fails)
  }

  lemma ReconcilesIff(fails: set<Command>, local: History, remoteHead: History)
    ensures Reconcile(fails, local, remoteHead) ==
              if Reconcilable(fails, local, remoteHead) then Some(remoteHead + LocalOnly(local, remoteHead)) else None
  {
    if Reconcile(fails, local, remoteHead).Some? {
      ReconcileIsRemoteThenLocalOnly(fails, local, remoteHead);
    }
    hide LocalOnly;
  }

  // ---------- What one publication does ----------

  /** All that a publication can change. */
  datatype Repository = Repository(local: History, remote: History, dirty: bool)

  /**
   * One publication, by how far its commands get: which result it gives, and what it leaves. Every other result is
   * CommandFailed.
   */
  predicate Explained(before: Repository, dispatchId: string, stamp: int, fails: set<Command>, arrivals: History,
                      r: PublishResult, after: Repository) {
    var remoteHead := if RemoteHead in fails then [] else before.remote;
    var base := remoteHead + LocalOnly(before.local, remoteHead);
    var history := base + [Manifest(dispatchId, base, stamp)];
    var clean := !before.dirty && fails !! {Status, HeadBefore, Fetch};
    var reconciled := clean && Reconcilable(fails, before.local, remoteHead);
    var written := reconciled && fails !! {HeadReconciled, WriteManifest};
    var committed := written && fails !! {Add, Commit};
    var attempted := committed && HeadManifest !in fails;
    var pushed := attempted && Push !in fails && before.remote + arrivals <= history;
    && (r == Blocked(StatusUnavailable) <==> Status in fails)
    && (r == Blocked(DirtyCheckout) <==> Status !in fails && before.dirty)
    && (r == Blocked(CannotReconcile) <==> clean && !reconciled)
    && (r == Blocked(PushFailed) <==> attempted && !pushed)
    && (r == Blocked(VerificationFailed) <==> pushed && HeadPushed !in fails && !(fails !! {VerifyAncestor, VerifyManifest}))
    && (r == Published(history, history) <==> pushed && fails !! {HeadPushed, VerifyAncestor, VerifyManifest})
    && (r.Published? ==> r == Published(history, history))
    && after == if pushed then Repository(history, history, false)
                else if attempted then Repository(if Reset in fails then history else base, before.remote + arrivals, Reset !in fails)
                else if committed then Repository(history, before.remote, false)
                else if written then Repository(base, before.remote, true)
                else if reconciled then Repository(base, before.remote, false)
                else before
  }

  /** The table leaves nothing open: each input has one result and one state after it. */
  lemma ExplanationDetermines(before: Repository, dispatchId: string, stamp: int, fails: set<Command>, arrivals: History,
                              r: PublishResult, after: Repository, other: PublishResult, otherAfter: Repository)
    requires Explained(before, dispatchId, stamp, fails, arrivals, r, after)
    requires Explained(before, dispatchId, stamp, fails, arrivals, other, otherAfter)
    ensures r == other && after == otherAfter
  {
    hide LocalOnly, Reconcilable;
    if r.Blocked? && other.Blocked? {
      match (r.why, other.why) {
        case (CommandFailed, CommandFailed) =>
        case _ =>
      }
    }
  }

  /**
   * A retry after a rejected push is refused, without changing anything, if and only if the rollback worked: it leaves
   * the manifest behind as an untracked file.
   */
  lemma RetryIsRefusedIff(before: Repository, dispatchId: string, stamp: int, fails: set<Command>, arrivals: History, between: Repository,
                          retry: int, later: set<Command>, others: History, r: PublishResult, after: Repository)
    requires Explained(before, dispatchId, stamp, fails, arrivals, Blocked(PushFailed), between)
    requires Explained(between, dispatchId, retry, later, others, r, after) && Status !in later
    ensures r == Blocked(DirtyCheckout) <==> Reset !in fails
    ensures Reset !in fails ==> after == between
  {
    hide LocalOnly, Reconcilable;
  }

  // ---------- The publication ----------

  class Checkout {
    /** The local main branch. */
    var local: History
    /** The remote main branch; [] while the remote has none. */
    var remote: History
    /** Uncommitted content in the work tree: user edits, or a manifest an earlier attempt left behind. */
    var dirty: bool

    /**
     * One publication under the per-repository lock. `arrivals` are the commits other writers push between the
     * fetch and the push.
     */
    method PublishToRemoteLocked(dispatchId: string, stamp: int, fails: set<Command>, arrivals: History)
      returns (r: PublishResult, ghost base: History)
      modifies this
      ensures Explained(Repository(old(local), old(remote), old(dirty)), dispatchId, stamp, fails, arrivals, r, Repository(local, remote, dirty))
      ensures old(remote) <= remote
      ensures forall p | p in old(local) :: p in local
      ensures old(dirty) ==> r.Blocked? && local == old(local) && remote == old(remote) && dirty
      ensures var remoteHead := if RemoteHead in fails then [] else old(remote);
              var manifest := Manifest(dispatchId, base, stamp);
              var reconciled := Reconcile(fails, old(local), remoteHead);
              && (r.Published? ==>
                    && reconciled == Some(base)
                    && remote == base + [manifest] && local == remote
                    && r == Published(remote, remote))
              && (r.Published? <==>
                    && !old(dirty) && reconciled.Some?
                    && fails !! {Status, HeadBefore, Fetch, HeadReconciled, WriteManifest, Add, Commit, HeadManifest, Push, HeadPushed, VerifyAncestor, VerifyManifest}
                    && old(remote) + arrivals <= reconciled.value + [Manifest(dispatchId, reconciled.value, stamp)])
              && (r == Blocked(PushFailed) ==>
                    && reconciled == Some(base) && remote == old(remote) + arrivals
                    && (Reset !in fails ==> local == base && dirty)
                    && (Reset in fails ==> local == base + [manifest]))
              && (r == Blocked(CannotReconcile) ==> local == old(local) && remote == old(remote))
    {
      ReconcilesIff(fails, local, if RemoteHead in fails then [] else remote);
      hide Reconcile, LocalOnly, Reconcilable;
      base := local;
      NoLocalPatchLost(local, if RemoteHead in fails then [] else remote);
      if Status in fails { return Blocked(StatusUnavailable), base; }
      if dirty { return Blocked(DirtyCheckout), base; }
      if HeadBefore in fails { return Blocked(CommandFailed), base; }
      if Fetch in fails { return Blocked(CommandFailed), base; }
      var remoteHead := if RemoteHead in fails then [] else remote;

      var reconciled := ReconcileWithRemote(fails, remoteHead);
      if !reconciled { return Blocked(CannotReconcile), base; }
      base := local;

      if HeadReconciled in fails { return Blocked(CommandFailed), base; }
      var preManifestHead := local;
      if WriteManifest in fails { return Blocked(CommandFailed), base; }
      dirty := true;
      if Add in fails || Commit in fails { return Blocked(CommandFailed), base; }
      local := local + [Manifest(dispatchId, preManifestHead, stamp)];
      dirty := false;
      if HeadManifest in fails { return Blocked(CommandFailed), base; }
      var resultSha := local;

      remote := remote + arrivals;
      if Push in fails || !(remote <= local) {
        if Reset !in fails {
          local := preManifestHead;
          dirty := true;
        }
        return Blocked(PushFailed), base;
      }
      remote := local;
      if HeadPushed in fails { return Blocked(CommandFailed), base; }
      var finalOnRemote := IsAncestor(fails, VerifyAncestor, resultSha, remote);
      var manifestOnRemote := VerifyManifest !in fails;
      if finalOnRemote && manifestOnRemote {
        return Published(local, resultSha), base;
      }
      return Blocked(VerificationFailed), base;
    }

    /** Classify the two heads, then fast-forward or rebase as needed. */
    method ReconcileWithRemote(fails: set<Command>, remoteHead: History) returns (ok: bool)
      modifies this`local
      ensures ok <==> Reconcile(fails, old(local), remoteHead).Some?
      ensures local == if ok then Reconcile(fails, old(local), remoteHead).value else old(local)
    {
      hide Rebased;
      var localHead := local;
      var relation: Relation;
      if remoteHead == [] || remoteHead == localHead {
        relation := UP_TO_DATE;
      } else if IsAncestor(fails, LocalIsAncestor, localHead, remoteHead) {
        relation := REMOTE_AHEAD;
      } else if IsAncestor(fails, RemoteIsAncestor, remoteHead, localHead) {
        relation := LOCAL_AHEAD;
      } else {
        relation := DIVERGED;
      }
      ok := true;
      if relation.REMOTE_AHEAD? {
        if FastForward !in fails {
          local := remoteHead;
        } else {
          ok := RebaseOntoRemoteMain(fails, remoteHead);
        }
      } else if relation.DIVERGED? {
        ok := RebaseOntoRemoteMain(fails, remoteHead);
      }
    }

    /** A failed rebase is aborted, which leaves main where it was. */
    method RebaseOntoRemoteMain(fails: set<Command>, remoteHead: History) returns (ok: bool)
      modifies this`local
      ensures ok <==> Rebase !in fails
      ensures local == if ok then Rebased(old(local), remoteHead) else old(local)
      ensures ok ==> remoteHead <= local
      ensures forall p | p in old(local) :: p in local
    {
      NoLocalPatchLost(local, remoteHead);
      hide LocalOnly;
      if Rebase in fails { return false; }
      local := Rebased(local, remoteHead);
      return true;
    }
  }

  /**
   * On a successful publication the remote is the fetched history, the local-only patches and the manifest, in
   * that order; when the remote head could not be read, it still extends everything that was fetched.
   */
  lemma PublishedHistory(fails: set<Command>, local: History, fetched: History, base: History, arrivals: History, manifest: Patch)
    requires Reconcile(fails, local, if RemoteHead in fails then [] else fetched) == Some(base)
    requires fetched + arrivals <= base + [manifest]
    ensures RemoteHead !in fails ==> base + [manifest] == fetched + LocalOnly(local, fetched) + [manifest]
    ensures RemoteHead in fails ==> base == local && fetched <= local + [manifest]
  {
    ReconcileIsRemoteThenLocalOnly(fails, local, if RemoteHead in fails then [] else fetched);
  }

  /** Spurious negative ancestry answers change nothing about a successful reconciliation. */
  lemma AncestryAnswersDoNotMatter(fails: set<Command>, other: set<Command>, local: History, remoteHead: History)
    requires Reconcile(fails, local, remoteHead).Some? && Reconcile(other, local, remoteHead).Some?
    ensures Reconcile(fails, local, remoteHead) == Reconcile(other, local, remoteHead)
  {
    ReconcileIsRemoteThenLocalOnly(fails, local, remoteHead);
    ReconcileIsRemoteThenLocalOnly(other, local, remoteHead);
  }
}
