/** What the calls of common/gin.go do to bodies, counters and the context of a request when no other step comes
    between: the body ends up on disk or in memory as the check decides, and closing it gives back what it took. */
module BodyCalls {
  import opened Options
  import opened BodyStorage

  /** Only what is large enough goes to disk, and only while it fits into what is left of the cap. */
  predicate Fits(cfg: Config, stats: Stats, size: int) {
    cfg.enabled && cfg.threshold <= size && size <= cfg.cap - stats.diskBytes
  }

  /** The counters after a body of this size was stored. */
  ghost function Grown(stats: Stats, disk: bool, size: nat): Stats {
    if disk
    then Stats(stats.diskFiles + 1, stats.diskBytes + size, stats.buffers, stats.bufferBytes)
    else Stats(stats.diskFiles, stats.diskBytes, stats.buffers + 1, stats.bufferBytes + size)
  }

  /** Bytes at hand are stored on disk where they fit and in memory otherwise; a body that replaced another keeps its
      bytes in the context as well. */
  lemma KnownBytesStored(cfg: Config, s: System, r: nat, size: nat, keep: bool)
    requires ContextOf(s.contexts, r).pc == Creating(size, keep)
    ensures var checked := Step(cfg, s, Admit(r));
            var disk := Fits(cfg, s.stats, size);
            var done := Step(cfg, if disk then Step(cfg, checked, Write(r, size)) else checked, AddSize(r));
            && done.bodies == s.bodies + [Body(r, disk, Open, size)]
            && done.stats == Grown(s.stats, disk, size)
            && done.contexts == s.contexts[r :=
                 Context(Some(|s.bodies|), if keep then Some(size) else ContextOf(s.contexts, r).bytes, Idle)]
  {
  }

  /** A request's first reading: a body of positive declared length that fits is written to disk as it comes; any other
      is read first and stored by its real length. A body that cannot be read stores nothing. */
  lemma FirstReading(cfg: Config, s: System, r: nat, declared: int, length: nat)
    requires ContextOf(s.contexts, r) == Context(None, None, Idle)
    ensures var begun := Step(cfg, s, GetBody(r, declared));
            if declared > 0 && Fits(cfg, s.stats, declared)
            then
              var done := Step(cfg, Step(cfg, begun, Write(r, length)), AddSize(r));
              && done.bodies == s.bodies + [Body(r, true, Open, length)] && done.stats == Grown(s.stats, true, length)
              && done.contexts == s.contexts[r := Context(Some(|s.bodies|), None, Idle)]
            else
              var read, failed := Step(cfg, begun, Drained(r, Some(length))), Step(cfg, begun, Drained(r, None));
              && read == System(s.bodies, s.stats, s.contexts[r := Context(None, None, Creating(length, false))])
              && failed == System(s.bodies, s.stats, s.contexts[r := Context(None, None, Idle)])
  {
  }

  /** A second reading finds the stored body, or stores the cached bytes again; it never reads the request. */
  lemma SecondReading(cfg: Config, s: System, r: nat, declared: int)
    requires var c := ContextOf(s.contexts, r); c.pc == Idle && (c.storage.Some? || c.bytes.Some?)
    ensures var c, next := ContextOf(s.contexts, r), Step(cfg, s, GetBody(r, declared));
            && (c.storage.Some? ==> next == s)
            && (c.storage.None? ==>
                  next == System(s.bodies, s.stats, s.contexts[r := c.(pc := Creating(c.bytes.value, false))]))
  {
  }

  /** The counters after an open body was closed. */
  ghost function Shrunk(stats: Stats, b: Body): Stats {
    if b.disk
    then Stats(stats.diskFiles - 1, stats.diskBytes - b.size, stats.buffers, stats.bufferBytes)
    else Stats(stats.diskFiles, stats.diskBytes, stats.buffers - 1, stats.bufferBytes - b.size)
  }

  /** Cleaning up closes the stored body, gives back exactly what it took, and forgets it. */
  lemma CleanupGivesBack(cfg: Config, s: System, r: nat, i: nat)
    requires Consistent(s) && ContextOf(s.contexts, r).pc == Idle && ContextOf(s.contexts, r).storage == Some(i)
    requires i < |s.bodies| && s.bodies[i].phase == Open
    ensures var done := Step(cfg, Step(cfg, Step(cfg, s, Cleanup(r)), FinishClose(i)), AfterClose(r));
            && done.bodies == s.bodies[i := s.bodies[i].(phase := Closed)] && done.stats == Shrunk(s.stats, s.bodies[i])
            && done.contexts == s.contexts[r := Context(None, ContextOf(s.contexts, r).bytes, Idle)]
  {
    hide Consistent;
    TakenIsCounted(s, i);
  }

  /** Replacing does the same and goes on to store the new bytes. */
  lemma ReplaceGivesBack(cfg: Config, s: System, r: nat, i: nat, size: nat)
    requires Consistent(s) && ContextOf(s.contexts, r).pc == Idle && ContextOf(s.contexts, r).storage == Some(i)
    requires i < |s.bodies| && s.bodies[i].phase == Open
    ensures var done := Step(cfg, Step(cfg, Step(cfg, s, Replace(r, size)), FinishClose(i)), AfterClose(r));
            && done.bodies == s.bodies[i := s.bodies[i].(phase := Closed)] && done.stats == Shrunk(s.stats, s.bodies[i])
            && done.contexts == s.contexts[r := Context(None, None, Creating(size, true))]
  {
    hide Consistent;
    TakenIsCounted(s, i);
  }

  lemma ReplaceOfNothing(cfg: Config, s: System, r: nat, size: nat)
    requires ContextOf(s.contexts, r).pc == Idle && ContextOf(s.contexts, r).storage == None
    ensures Step(cfg, s, Replace(r, size)) ==
            System(s.bodies, s.stats, s.contexts[r := Context(None, None, Creating(size, true))])
  {
  }

  /** What an open body took is still in the counters. */
  lemma TakenIsCounted(s: System, i: nat)
    requires Consistent(s) && i < |s.bodies| && s.bodies[i].phase == Open
    ensures s.bodies[i].disk ==> s.stats.diskFiles >= 1 && s.stats.diskBytes >= s.bodies[i].size
  {
    TotalAtLeast(s.bodies, i);
  }

  /** A file that cannot be written: bytes at hand go to memory, and a body that was still being read is given up. */
  lemma FailedFile(cfg: Config, s: System, r: nat, i: nat, known: bool, keep: bool)
    requires ContextOf(s.contexts, r).pc == Filling(i, known, keep) && i < |s.bodies|
    ensures var b, c := s.bodies[i], ContextOf(s.contexts, r);
            var failed := Step(cfg, s, Fail(r));
            if known
            then
              var done := Step(cfg, failed, AddSize(r));
              && done.bodies == s.bodies[i := b.(phase := Failed)] + [Body(r, false, Open, b.size)]
              && done.stats == Grown(s.stats, false, b.size)
              && done.contexts ==
                 s.contexts[r := Context(Some(|s.bodies|), if keep then Some(b.size) else c.bytes, Idle)]
            else
              && failed.bodies == s.bodies[i := b.(phase := Failed)] && failed.stats == s.stats
              && failed.contexts == s.contexts[r := c.(pc := Idle)]
  {
  }
}
