/** createBoundedLogSink: a log file that rotates into a single predecessor. */
module LogSink {
  import opened Wrappers

  type Bytes = seq<int>

  /** The two files; None is an absent file. */
  datatype Disk = Disk(active: Option<Bytes>, previous: Option<Bytes>)

  /** The files, whether a descriptor is held, the byte count attributed to the active file, and the rotations done. */
  datatype Sink = Sink(disk: Disk, isOpen: bool, counted: nat, rotations: nat)

  function Content(file: Option<Bytes>): Bytes {
    if file.Some? then file.value else []
  }

  /** Everything on disk, oldest byte first. */
  function Logged(d: Disk): Bytes {
    Content(d.previous) + Content(d.active)
  }

  /** The file-system calls of one entry point, by the place they are made; a failing call throws. */
  datatype Call = FirstOpen | FirstStat | RemovePrevious | Rename | Reopen | RestatAfterReopen | WriteLine

  /** One write: the formatted line and the calls that fail during it. */
  datatype Attempt = Attempt(line: Bytes, fails: set<Call>)

  ghost predicate Suffix(a: Bytes, b: Bytes) {
    |a| <= |b| && b[|b| - |a|..] == a
  }

  function Max(a: int, b: int): int {
    if a > b then a else b
  }

  /** Largest size the active file may reach: what it started with, or a full file and one more line. */
  function Bound(initial: nat, maxBytes: nat, longest: nat): int {
    Max(initial, Max(maxBytes, 1) - 1 + longest)
  }

  // ---------- Specification ----------

  /** openSync in append mode creates a missing file; a failing stat counts as an empty file. */
  function Opened(k: Sink, openFails: bool, statFails: bool): Sink {
    if openFails then k
    else
      var content := Content(k.disk.active);
      k.(disk := k.disk.(active := Some(content)), isOpen := true, counted := if statFails then 0 else |content|)
  }

  predicate Renames(k: Sink, fails: set<Call>) {
    fails !! {RemovePrevious, Rename} && k.disk.active.Some?
  }

  /** The files after a rotation that may fail half-way, before the active file is opened again. */
  function RotatedDisk(k: Sink, fails: set<Call>): Disk {
    if RemovePrevious in fails then k.disk
    else if Renames(k, fails) then Disk(None, k.disk.active)
    else k.disk.(previous := None)
  }

  function Rotated(k: Sink, fails: set<Call>): Sink {
    var closed := Sink(RotatedDisk(k, fails), false, k.counted, k.rotations + if Renames(k, fails) then 1 else 0);
    Opened(closed, Reopen in fails, RestatAfterReopen in fails)
  }

  function Started(disk: Disk, maxBytes: nat, fails: set<Call>): Sink {
    var k := Opened(Sink(disk, false, 0, 0), FirstOpen in fails, FirstStat in fails);
    if k.isOpen && k.counted > maxBytes then Rotated(k, fails) else k
  }

  function EnsuredOpen(k: Sink, fails: set<Call>): Sink {
    if k.isOpen then k else Opened(k, FirstOpen in fails, FirstStat in fails)
  }

  function Appended(k: Sink, line: Bytes): Sink {
    k.(disk := k.disk.(active := Some(Content(k.disk.active) + line)), counted := k.counted + |line|)
  }

  datatype Outcome = Outcome(sink: Sink, accepted: bool)

  /** A rotation that could not rename refuses the line; one that could not reopen the file throws out of the write. */
  function Written(k: Sink, maxBytes: nat, line: Bytes, fails: set<Call>): Outcome {
    var ready := EnsuredOpen(k, fails);
    if !ready.isOpen then Outcome(ready, false)
    else if ready.counted < maxBytes then
      if WriteLine in fails then Outcome(ready, false) else Outcome(Appended(ready, line), true)
    else
      var rotated := Rotated(ready, fails);
      if !Renames(ready, fails) || Reopen in fails || WriteLine in fails then Outcome(rotated, false)
      else Outcome(Appended(rotated, line), true)
  }

  /** A sink and which of the lines written so far it accepted. */
  datatype Story = Story(sink: Sink, accepted: seq<bool>)

  function Told(disk: Disk, maxBytes: nat, startFails: set<Call>, attempts: seq<Attempt>): (t: Story)
    ensures |t.accepted| == |attempts|
  {
    if attempts == [] then Story(Started(disk, maxBytes, startFails), [])
    else
      var n := |attempts| - 1;
      var before := Told(disk, maxBytes, startFails, attempts[..n]);
      var o := Written(before.sink, maxBytes, attempts[n].line, attempts[n].fails);
      Story(o.sink, before.accepted + [o.accepted])
  }

  /** All accepted lines of a session, in order. */
  function Accepted(attempts: seq<Attempt>, accepted: seq<bool>): Bytes
    requires |attempts| == |accepted|
  {
    if attempts == [] then []
    else
      var n := |attempts| - 1;
      Accepted(attempts[..n], accepted[..n]) + if accepted[n] then attempts[n].line else []
  }

  // ---------- Nothing is lost out of order ----------

  lemma SuffixOfSuffix(a: Bytes, b: Bytes, c: Bytes)
    requires Suffix(a, b) && Suffix(b, c)
    ensures Suffix(a, c)
  {
    assert c[|c| - |a|..] == c[|c| - |b|..][|b| - |a|..];
  }

  lemma SuffixAppend(a: Bytes, b: Bytes, line: Bytes)
    requires Suffix(a, b)
    ensures Suffix(a + line, b + line)
  {
    assert (b + line)[|b + line| - |a + line|..] == b[|b| - |a|..] + line;
  }

  lemma SuffixSelf(a: Bytes)
    ensures Suffix(a, a)
  {
  }

  /** An open sink has an active file. */
  predicate Usable(k: Sink) {
    k.isOpen ==> k.disk.active.Some?
  }

  lemma OpenedKeepsLog(k: Sink, openFails: bool, statFails: bool)
    requires !k.isOpen
    ensures Usable(Opened(k, openFails, statFails)) && Logged(Opened(k, openFails, statFails).disk) == Logged(k.disk)
  {
  }

  lemma RotatedDiskIsSuffix(k: Sink, fails: set<Call>)
    ensures Suffix(Logged(RotatedDisk(k, fails)), Logged(k.disk))
  {
    var before, after := Logged(k.disk), Logged(RotatedDisk(k, fails));
    if RemovePrevious in fails {
      SuffixSelf(before);
    } else {
      assert after == Content(k.disk.active);
      assert before[|before| - |after|..] == after;
    }
  }

  lemma RotatedKeepsSuffix(k: Sink, fails: set<Call>)
    ensures Usable(Rotated(k, fails)) && Suffix(Logged(Rotated(k, fails).disk), Logged(k.disk))
  {
    RotatedDiskIsSuffix(k, fails);
    hide Suffix, Logged, RotatedDisk;
    OpenedKeepsLog(Sink(RotatedDisk(k, fails), false, k.counted, k.rotations + if Renames(k, fails) then 1 else 0), Reopen in fails, RestatAfterReopen in fails);
  }

  lemma AppendedKeepsSuffix(k: Sink, line: Bytes, sofar: Bytes)
    requires Suffix(Logged(k.disk), sofar)
    ensures Usable(Appended(k, line)) && Suffix(Logged(Appended(k, line).disk), sofar + line)
  {
    SuffixAppend(Logged(k.disk), sofar, line);
    assert Logged(Appended(k, line).disk) == Logged(k.disk) + line;
  }

  lemma NothingAdded(a: Bytes)
    ensures a + [] == a
  {
  }

  lemma StartedKeepsSuffix(disk: Disk, maxBytes: nat, fails: set<Call>)
    ensures Usable(Started(disk, maxBytes, fails)) && Suffix(Logged(Started(disk, maxBytes, fails).disk), Logged(disk))
  {
    var k := Opened(Sink(disk, false, 0, 0), FirstOpen in fails, FirstStat in fails);
    OpenedKeepsLog(Sink(disk, false, 0, 0), FirstOpen in fails, FirstStat in fails);
    SuffixSelf(Logged(disk));
    RotatedKeepsSuffix(k, fails);
    hide Suffix, Logged, Opened, Rotated;
  }

  /** An accepted line follows everything still on disk; a refused one adds nothing. */
  lemma WrittenKeepsSuffix(k: Sink, maxBytes: nat, line: Bytes, fails: set<Call>)
    requires Usable(k)
    ensures var o := Written(k, maxBytes, line, fails);
            Usable(o.sink) && Suffix(Logged(o.sink.disk), if o.accepted then Logged(k.disk) + line else Logged(k.disk))
  {
    hide Suffix, Logged, EnsuredOpen, Rotated, Appended, Usable;
    var ready := EnsuredOpen(k, fails);
    EnsuredKeepsLog(k, fails);
    SuffixSelf(Logged(k.disk));
    RotatedKeepsSuffix(ready, fails);
    AppendedKeepsSuffix(ready, line, Logged(k.disk));
    AppendedKeepsSuffix(Rotated(ready, fails), line, Logged(k.disk));
  }

  lemma EnsuredKeepsLog(k: Sink, fails: set<Call>)
    requires Usable(k)
    ensures Usable(EnsuredOpen(k, fails)) && Logged(EnsuredOpen(k, fails).disk) == Logged(k.disk)
  {
    if !k.isOpen {
      OpenedKeepsLog(k, FirstOpen in fails, FirstStat in fails);
    }
  }

  lemma Regroup(a: Bytes, b: Bytes, c: Bytes)
    ensures a + b + c == a + (b + c)
  {
  }

  lemma AcceptedGrows(attempts: seq<Attempt>, accepted: seq<bool>)
    requires attempts != [] && |accepted| == |attempts|
    ensures var n := |attempts| - 1;
            Accepted(attempts, accepted) == Accepted(attempts[..n], accepted[..n]) + if accepted[n] then attempts[n].line else []
  {
  }

  /**
   * For every sequence of writes, with any calls failing: what is on disk is a suffix of the initial contents
   * followed by the accepted lines.
   */
  lemma {:induction false} SessionKeepsSuffix(disk: Disk, maxBytes: nat, startFails: set<Call>, attempts: seq<Attempt>)
    ensures var t := Told(disk, maxBytes, startFails, attempts);
            Usable(t.sink) && Suffix(Logged(t.sink.disk), Logged(disk) + Accepted(attempts, t.accepted))
  {
    if attempts == [] {
      StartedKeepsSuffix(disk, maxBytes, startFails);
      NothingAdded(Logged(disk));
    } else {
      var n := |attempts| - 1;
      var last, before := attempts[n], Told(disk, maxBytes, startFails, attempts[..n]);
      SessionKeepsSuffix(disk, maxBytes, startFails, attempts[..n]);
      WrittenKeepsSuffix(before.sink, maxBytes, last.line, last.fails);
      var o, sofar := Written(before.sink, maxBytes, last.line, last.fails), Accepted(attempts[..n], before.accepted);
      var t := Told(disk, maxBytes, startFails, attempts);
      assert t == Story(o.sink, before.accepted + [o.accepted]) && t.accepted[..n] == before.accepted;
      AcceptedGrows(attempts, t.accepted);
      hide Suffix, Logged, Accepted, Written, Told;
      var line := if o.accepted then last.line else [];
      NothingAdded(Logged(before.sink.disk));
      SuffixAppend(Logged(before.sink.disk), Logged(disk) + sofar, line);
      Regroup(Logged(disk), sofar, line);
      SuffixOfSuffix(Logged(t.sink.disk), Logged(before.sink.disk) + line, Logged(disk) + Accepted(attempts, t.accepted));
    }
  }

  // ---------- The bound ----------

  /** The counter of an open sink is the size of its file. */
  predicate CountsTruly(k: Sink) {
    k.isOpen ==> k.disk.active.Some? && k.counted == |k.disk.active.value|
  }

  /**
   * No size query fails, other than the one after a rotation that cannot fail: that one is asked of a new file, which
   * is empty anyway.
   */
  predicate Harmless(fails: set<Call>) {
    FirstStat !in fails && (RestatAfterReopen !in fails || fails !! {RemovePrevious, Rename})
  }

  function Size(k: Sink): nat {
    |Content(k.disk.active)|
  }

  lemma RotatedCountsTruly(k: Sink, fails: set<Call>)
    requires k.disk.active.Some?
    ensures Size(Rotated(k, fails)) == if Renames(k, fails) then 0 else Size(k)
    ensures Harmless(fails) ==> CountsTruly(Rotated(k, fails))
  {
  }

  lemma WrittenStaysBounded(k: Sink, maxBytes: nat, line: Bytes, fails: set<Call>)
    requires Usable(k) && (maxBytes == 0 || (CountsTruly(k) && Harmless(fails)))
    ensures var o := Written(k, maxBytes, line, fails);
            && Size(o.sink) <= Bound(Size(k), maxBytes, |line|)
            && (maxBytes > 0 ==> CountsTruly(o.sink))
  {
    var ready := EnsuredOpen(k, fails);
    assert Size(ready) == Size(k);
    if ready.isOpen {
      RotatedCountsTruly(ready, fails);
      hide Rotated;
      assert Size(Appended(ready, line)) == Size(ready) + |line|;
      assert Size(Appended(Rotated(ready, fails), line)) == Size(Rotated(ready, fails)) + |line|;
    }
  }

  lemma StartedStaysBounded(disk: Disk, maxBytes: nat, fails: set<Call>)
    ensures Size(Started(disk, maxBytes, fails)) <= |Content(disk.active)|
    ensures Harmless(fails) ==> CountsTruly(Started(disk, maxBytes, fails))
  {
    var k := Opened(Sink(disk, false, 0, 0), FirstOpen in fails, FirstStat in fails);
    if k.isOpen {
      RotatedCountsTruly(k, fails);
    }
  }

  /** All failures lie in `mayFail`, and no line is longer than `longest`. */
  predicate WithinMeans(attempts: seq<Attempt>, mayFail: set<Call>, longest: nat) {
    forall a | a in attempts :: a.fails <= mayFail && |a.line| <= longest
  }

  lemma {:induction false} SessionStaysBounded(disk: Disk, maxBytes: nat, startFails: set<Call>, attempts: seq<Attempt>, mayFail: set<Call>, longest: nat)
    requires startFails <= mayFail && WithinMeans(attempts, mayFail, longest)
    requires maxBytes == 0 || Harmless(mayFail)
    ensures var k := Told(disk, maxBytes, startFails, attempts).sink;
            && Size(k) <= Bound(|Content(disk.active)|, maxBytes, longest)
            && (maxBytes > 0 ==> CountsTruly(k))
  {
    if attempts == [] {
      StartedStaysBounded(disk, maxBytes, startFails);
    } else {
      var n := |attempts| - 1;
      var last, before := attempts[n], Told(disk, maxBytes, startFails, attempts[..n]);
      assert last in attempts;
      SessionStaysBounded(disk, maxBytes, startFails, attempts[..n], mayFail, longest);
      SessionKeepsSuffix(disk, maxBytes, startFails, attempts[..n]);
      hide Suffix, Logged, Accepted, Written, CountsTruly;
      WrittenStaysBounded(before.sink, maxBytes, last.line, last.fails);
    }
  }

  /** Every session whose failing calls lie in `mayFail` keeps the active file within its bound. */
  ghost predicate StaysBounded(maxBytes: nat, mayFail: set<Call>) {
    forall disk, startFails, attempts, longest: nat | startFails <= mayFail && WithinMeans(attempts, mayFail, longest) ::
      Size(Told(disk, maxBytes, startFails, attempts).sink) <= Bound(|Content(disk.active)|, maxBytes, longest)
  }

  function Zeros(n: nat): Bytes {
    seq(n, i => 0)
  }

  function FullDisk(maxBytes: nat): Disk {
    Disk(Some(Zeros(maxBytes)), None)
  }

  /** A file whose size cannot be read at start-up takes another line, however long the file is. */
  lemma FailedStatEscapes(content: Bytes, maxBytes: nat, line: Bytes)
    requires 0 < maxBytes && 0 < |line| && maxBytes - 1 + |line| <= |content|
    ensures Size(Told(Disk(Some(content), None), maxBytes, {FirstStat}, [Attempt(line, {})]).sink) > Bound(|content|, maxBytes, |line|)
  {
    assert [Attempt(line, {})][..0] == [];
    var k := Started(Disk(Some(content), None), maxBytes, {FirstStat});
    assert k == Sink(Disk(Some(content), None), true, 0, 0);
    assert Written(k, maxBytes, line, {}) == Outcome(Appended(k, line), true);
    assert Size(Appended(k, line)) == |content| + |line|;
  }

  /** So does one whose rotation fails, and whose size cannot be read after that. */
  lemma FailedRestatEscapes(maxBytes: nat, rotation: Call)
    requires maxBytes > 0 && (rotation.Rename? || rotation.RemovePrevious?)
    ensures Size(Told(FullDisk(maxBytes), maxBytes, {}, [Attempt([0], {rotation, RestatAfterReopen}), Attempt([0], {})]).sink) == maxBytes + 1
  {
    var first, second := Attempt([0], {rotation, RestatAfterReopen}), Attempt([0], {});
    assert [first, second][..1] == [first] && [first][..0] == [];
    var k := Sink(FullDisk(maxBytes), true, maxBytes, 0);
    assert Started(FullDisk(maxBytes), maxBytes, {}) == k;
    var refused := Written(k, maxBytes, [0], first.fails);
    assert refused == Outcome(k.(counted := 0), false);
    assert Told(FullDisk(maxBytes), maxBytes, {}, [first]) == Story(refused.sink, [false]);
    assert Written(refused.sink, maxBytes, [0], {}) == Outcome(Appended(refused.sink, [0]), true);
    assert Size(Appended(refused.sink, [0])) == maxBytes + 1;
  }

  /**
   * The bound holds for every session with failures in `mayFail` if and only if the file has no bytes to spare
   * at all, or no size query among them can fail while it matters.
   */
  lemma StaysBoundedIff(maxBytes: nat, mayFail: set<Call>)
    ensures StaysBounded(maxBytes, mayFail) <==> maxBytes == 0 || Harmless(mayFail)
  {
    hide Told, Bound;
    if maxBytes == 0 || Harmless(mayFail) {
      forall disk, startFails, attempts, longest: nat | startFails <= mayFail && WithinMeans(attempts, mayFail, longest)
        ensures Size(Told(disk, maxBytes, startFails, attempts).sink) <= Bound(|Content(disk.active)|, maxBytes, longest)
      {
        SessionStaysBounded(disk, maxBytes, startFails, attempts, mayFail, longest);
      }
    } else {
      BoundOfFullDisk(maxBytes);
      if FirstStat in mayFail {
        FailedStatEscapes(Zeros(maxBytes), maxBytes, [0]);
        assert WithinMeans([Attempt([0], {})], mayFail, 1);
      } else {
        var rotation := if Rename in mayFail then Rename else RemovePrevious;
        FailedRestatEscapes(maxBytes, rotation);
        assert WithinMeans([Attempt([0], {rotation, RestatAfterReopen}), Attempt([0], {})], mayFail, 1);
      }
    }
  }

  lemma BoundOfFullDisk(maxBytes: nat)
    requires maxBytes > 0
    ensures Bound(|Content(FullDisk(maxBytes).active)|, maxBytes, 1) == maxBytes
  {
  }

  // ---------- The sink ----------

  class BoundedLogSink {
    const maxBytes: nat
    var disk: Disk
    var isOpen: bool
    var counted: nat
    var rotationCount: nat

    ghost function Now(): Sink
      reads this
    {
      Sink(disk, isOpen, counted, rotationCount)
    }

    constructor (disk: Disk, maxBytes: nat, fails: set<Call>)
      ensures this.maxBytes == maxBytes && Now() == Started(disk, maxBytes, fails)
    {
      this.maxBytes := maxBytes;
      this.disk := disk;
      isOpen, counted, rotationCount := false, 0, 0;
      new;
      var ok := Open(FirstOpen in fails, FirstStat in fails);
      if ok && counted > maxBytes {
        var rotated := Rotate(fails);
      }
    }

    method Open(openFails: bool, statFails: bool) returns (ok: bool)
      requires !isOpen
      modifies this`disk, this`isOpen, this`counted
      ensures ok <==> !openFails
      ensures Now() == Opened(old(Now()), openFails, statFails)
    {
      if openFails { return false; }
      if disk.active.None? {
        disk := disk.(active := Some([]));
      }
      isOpen := true;
      counted := if statFails then 0 else |disk.active.value|;
      return true;
    }

    /** True only when the rename completed; a descriptor is reopened either way. */
    method Rotate(fails: set<Call>) returns (renamed: bool)
      modifies this`disk, this`isOpen, this`counted, this`rotationCount
      ensures renamed <==> Renames(old(Now()), fails)
      ensures Now() == Rotated(old(Now()), fails)
      ensures Usable(Now()) && (isOpen <==> Reopen !in fails)
      ensures renamed ==> Content(disk.previous) == old(disk).active.value && Content(disk.active) == []
      ensures !renamed ==> Content(disk.active) == Content(old(disk).active) && (disk.previous == old(disk).previous || disk.previous.None?)
      ensures rotationCount == old(rotationCount) + if renamed then 1 else 0
      ensures Harmless(fails) && old(disk).active.Some? ==> CountsTruly(Now())
      ensures Suffix(Logged(disk), Logged(old(disk)))
    {
      RotatedKeepsSuffix(Now(), fails);
      hide Suffix, Logged;
      isOpen := false;
      renamed := false;
      if RemovePrevious !in fails {
        disk := disk.(previous := None);
        if disk.active.Some? && Rename !in fails {
          disk := Disk(None, disk.active);
          rotationCount := rotationCount + 1;
          renamed := true;
        }
      }
      var reopened := Open(Reopen in fails, RestatAfterReopen in fails);
    }

    /** Write one line; the result says whether it reached the file. */
    method Write(line: Bytes, fails: set<Call>) returns (accepted: bool)
      requires Usable(Now())
      modifies this`disk, this`isOpen, this`counted, this`rotationCount
      ensures Outcome(Now(), accepted) == Written(old(Now()), maxBytes, line, fails)
      ensures Usable(Now())
      ensures Suffix(Logged(disk), if accepted then Logged(old(disk)) + line else Logged(old(disk)))
      ensures accepted ==> Suffix(line, Content(disk.active))
      ensures CountsTruly(old(Now())) && Harmless(fails) ==>
                CountsTruly(Now()) && Size(Now()) <= Bound(Size(old(Now())), maxBytes, |line|)
      ensures fails == {} ==> accepted
    {
      hide Suffix, Logged, CountsTruly, Harmless, Size, Bound, Rotated;
      WrittenKeepsSuffix(Now(), maxBytes, line, fails);
      WriteCounts(Now(), maxBytes, line, fails);
      AcceptedLineIsLast(Now(), maxBytes, line, fails);
      if !isOpen {
        var ok := Open(FirstOpen in fails, FirstStat in fails);
        if !isOpen { return false; }
      }
      if counted >= maxBytes {
        var rotated := Rotate(fails);
        if !rotated || !isOpen { return false; }
      }
      if WriteLine in fails { return false; }
      disk := disk.(active := Some(disk.active.value + line));
      counted := counted + |line|;
      return true;
    }
  }

  /** An accepted line ends the file, and without a failure every line is accepted. */
  lemma AcceptedLineIsLast(k: Sink, maxBytes: nat, line: Bytes, fails: set<Call>)
    requires Usable(k)
    ensures var o := Written(k, maxBytes, line, fails);
            && (o.accepted ==> Suffix(line, Content(o.sink.disk.active)))
            && (fails == {} ==> o.accepted)
  {
    var ready := EnsuredOpen(k, fails);
    AppendedEndsWith(ready, line);
    AppendedEndsWith(Rotated(ready, fails), line);
    hide Suffix, Appended, Rotated;
  }

  lemma AppendedEndsWith(k: Sink, line: Bytes)
    ensures Suffix(line, Content(Appended(k, line).disk.active))
  {
    assert (Content(k.disk.active) + line)[|Content(k.disk.active)|..] == line;
  }

  lemma WriteCounts(k: Sink, maxBytes: nat, line: Bytes, fails: set<Call>)
    requires Usable(k)
    ensures var t := Written(k, maxBytes, line, fails).sink;
            CountsTruly(k) && Harmless(fails) ==> CountsTruly(t) && Size(t) <= Bound(Size(k), maxBytes, |line|)
  {
    if CountsTruly(k) && Harmless(fails) {
      WrittenStaysBounded(k, maxBytes, line, fails);
      if maxBytes == 0 {
        ZeroCountsTruly(k, line, fails);
      }
    }
  }

  lemma ZeroCountsTruly(k: Sink, line: Bytes, fails: set<Call>)
    requires Usable(k) && CountsTruly(k) && Harmless(fails)
    ensures CountsTruly(Written(k, 0, line, fails).sink)
  {
    var ready := EnsuredOpen(k, fails);
    if ready.isOpen {
      RotatedCountsTruly(ready, fails);
      hide Rotated;
    }
  }

  /** Any sequence of writes, with any calls failing, as the sink performs it. */
  method Session(disk: Disk, maxBytes: nat, startFails: set<Call>, attempts: seq<Attempt>, longest: nat, ghost mayFail: set<Call>)
    returns (accepted: seq<bool>, final: Disk)
    requires startFails <= mayFail && WithinMeans(attempts, mayFail, longest)
    ensures |accepted| == |attempts| && accepted == Told(disk, maxBytes, startFails, attempts).accepted
    ensures Suffix(Logged(final), Logged(disk) + Accepted(attempts, accepted))
    ensures maxBytes == 0 || Harmless(mayFail) ==> |Content(final.active)| <= Bound(|Content(disk.active)|, maxBytes, longest)
  {
    hide Suffix, Logged, Accepted, Harmless, Bound, Started;
    var sink := new BoundedLogSink(disk, maxBytes, startFails);
    accepted := [];
    for i := 0 to |attempts|
      invariant sink.maxBytes == maxBytes && |accepted| == i
      invariant Story(sink.Now(), accepted) == Told(disk, maxBytes, startFails, attempts[..i])
    {
      SessionKeepsSuffix(disk, maxBytes, startFails, attempts[..i]);
      assert attempts[..i + 1][..i] == attempts[..i];
      var ok := sink.Write(attempts[i].line, attempts[i].fails);
      accepted := accepted + [ok];
    }
    assert attempts[..|attempts|] == attempts;
    final := sink.disk;
    SessionKeepsSuffix(disk, maxBytes, startFails, attempts);
    if maxBytes == 0 || Harmless(mayFail) {
      SessionStaysBounded(disk, maxBytes, startFails, attempts, mayFail, longest);
    }
  }
}
