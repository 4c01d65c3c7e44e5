/** When a log sink rotates, accepts or refuses, and what each call leaves in the two files. */
module LogSinkLaws {
  import opened LogSink
  import opened Wrappers

  /** The size the sink goes by: its counter while a descriptor is held, and else what the first size query says. */
  function KnownSize(k: Sink, fails: set<Call>): nat {
    if k.isOpen then k.counted else if FirstStat in fails then 0 else |Content(k.disk.active)|
  }

  /** The files and the counter after a rotation, whether or not it renamed and reopened, and `added` bytes of a line. */
  predicate RotatedTo(k: Sink, size: nat, fails: set<Call>, added: Bytes, t: Sink) {
    var renamed := fails !! {RemovePrevious, Rename};
    && t.disk.previous == (if renamed then Some(Content(k.disk.active)) else if RemovePrevious in fails then k.disk.previous else None)
    && Content(t.disk.active) == (if renamed then [] else Content(k.disk.active)) + added
    && t.rotations == k.rotations + (if renamed then 1 else 0)
    && (t.isOpen <==> Reopen !in fails)
    && t.counted == if Reopen in fails then size
                    else |added| + if RestatAfterReopen in fails || renamed then 0 else |Content(k.disk.active)|
  }

  /** The active file grew by these bytes, and nothing else changed. */
  predicate Grew(k: Sink, size: nat, added: Bytes, t: Sink) {
    && t.isOpen && t.disk.previous == k.disk.previous && t.rotations == k.rotations
    && Content(t.disk.active) == Content(k.disk.active) + added && t.counted == size + |added|
  }

  /**
   * A write needs a descriptor. It rotates first if and only if the file is known to have reached its maximum, and the line is
   * accepted if and only if it can be written and no rotation it needed failed.
   */
  lemma WriteLaw(k: Sink, maxBytes: nat, line: Bytes, fails: set<Call>)
    requires Usable(k)
    ensures var o, opens, size := Written(k, maxBytes, line, fails), k.isOpen || FirstOpen !in fails, KnownSize(k, fails);
      && (o.accepted <==> opens && WriteLine !in fails && (size >= maxBytes ==> fails !! {RemovePrevious, Rename, Reopen}))
      && if !opens then o.sink == k
         else if size < maxBytes then Grew(k, size, if o.accepted then line else [], o.sink)
         else RotatedTo(k, size, fails, if o.accepted then line else [], o.sink)
  {
    ReadyLaw(k, fails);
    var ready := EnsuredOpen(k, fails);
    if ready.isOpen {
      RotationLaw(ready, fails);
      AppendLaw(ready, line);
      AppendLaw(Rotated(ready, fails), line);
      EmptyEnd(Content(k.disk.active));
      hide Rotated, EnsuredOpen, Appended;
    }
  }

  lemma ReadyLaw(k: Sink, fails: set<Call>)
    requires Usable(k)
    ensures var t := EnsuredOpen(k, fails);
      if k.isOpen || FirstOpen !in fails then
        && t.isOpen && t.disk == Disk(Some(Content(k.disk.active)), k.disk.previous) && t.counted == KnownSize(k, fails) && t.rotations == k.rotations
      else t == k
  {
  }

  lemma RotationLaw(k: Sink, fails: set<Call>)
    requires k.disk.active.Some?
    ensures RotatedTo(k, k.counted, fails, [], Rotated(k, fails))
    ensures Renames(k, fails) <==> fails !! {RemovePrevious, Rename}
    ensures Reopen !in fails ==> Rotated(k, fails).disk.active.Some?
  {
  }

  lemma AppendLaw(k: Sink, line: Bytes)
    ensures var t := Appended(k, line);
      && t.isOpen == k.isOpen && t.disk.previous == k.disk.previous && t.rotations == k.rotations
      && Content(t.disk.active) == Content(k.disk.active) + line && t.counted == k.counted + |line|
  {
  }

  lemma EmptyEnd(a: Bytes)
    ensures a + [] == a && [] + a == a
  {
  }

  /** A new sink opens the file, and rotates at once if and only if the file is known to be past its maximum. */
  lemma StartLaw(disk: Disk, maxBytes: nat, fails: set<Call>)
    ensures var t, k, size := Started(disk, maxBytes, fails), Sink(disk, false, 0, 0), if FirstStat in fails then 0 else |Content(disk.active)|;
      if FirstOpen in fails then t == k
      else if size <= maxBytes then Grew(k, size, [], t)
      else RotatedTo(k, size, fails, [], t)
  {
    var ready := Opened(Sink(disk, false, 0, 0), FirstOpen in fails, FirstStat in fails);
    if FirstOpen !in fails {
      RotationLaw(ready, fails);
      EmptyEnd(Content(disk.active));
      hide Rotated;
    }
  }
}
