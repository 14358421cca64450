/** Request bodies kept in memory or in a temporary file: common/body_storage.go, the counters of
    common/disk_cache_config.go, and the ownership of a storage by a request in common/gin.go. */
module BodyStorage {
  import opened Options

  // ---------- The counters ----------

  datatype Stats = Stats(diskFiles: int, diskBytes: int, buffers: int, bufferBytes: int)

  /** An atomic add that is followed by storing 0 when it went below 0. */
  function Clamp(n: int): int {
    if n < 0 then 0 else n
  }

  class DiskCacheStats {
    var activeDiskFiles: int
    var currentDiskUsageBytes: int
    var activeMemoryBuffers: int
    var currentMemoryUsageBytes: int

    function View(): Stats
      reads this
    {
      Stats(activeDiskFiles, currentDiskUsageBytes, activeMemoryBuffers, currentMemoryUsageBytes)
    }

    method IncrementDiskFiles(size: int)
      modifies this
      ensures View() == old(View()).(
                diskFiles := old(activeDiskFiles) + 1, diskBytes := old(currentDiskUsageBytes) + size)
    {
      activeDiskFiles := activeDiskFiles + 1;
      currentDiskUsageBytes := currentDiskUsageBytes + size;
    }

    method DecrementDiskFiles(size: int)
      modifies this
      ensures View() == old(View()).(
                diskFiles := if old(activeDiskFiles) > 0 then old(activeDiskFiles) - 1 else 0,
                diskBytes := if old(currentDiskUsageBytes) > size then old(currentDiskUsageBytes) - size else 0)
    {
      activeDiskFiles := activeDiskFiles - 1;
      if activeDiskFiles < 0 {
        activeDiskFiles := 0;
      }
      currentDiskUsageBytes := currentDiskUsageBytes - size;
      if currentDiskUsageBytes < 0 {
        currentDiskUsageBytes := 0;
      }
    }

    method IncrementMemoryBuffers(size: int)
      modifies this
      ensures View() == old(View()).(
                buffers := old(activeMemoryBuffers) + 1, bufferBytes := old(currentMemoryUsageBytes) + size)
    {
      activeMemoryBuffers := activeMemoryBuffers + 1;
      currentMemoryUsageBytes := currentMemoryUsageBytes + size;
    }

    method DecrementMemoryBuffers(size: int)
      modifies this
      ensures View() == old(View()).(
                buffers := old(activeMemoryBuffers) - 1, bufferBytes := old(currentMemoryUsageBytes) - size)
    {
      activeMemoryBuffers := activeMemoryBuffers - 1;
      currentMemoryUsageBytes := currentMemoryUsageBytes - size;
    }
  }

  // ---------- One storage ----------

  datatype Whence = FromStart | FromCurrent | FromEnd

  /** What a read at `pos` of at most `n` bytes delivers. */
  function Chunk(data: seq<bv8>, pos: nat, n: nat): seq<bv8> {
    if pos >= |data| then [] else if pos + n <= |data| then data[pos..pos + n] else data[pos..]
  }

  /** A storage in memory or in a file: both keep the bytes, a position, and whether they are closed. */
  class Storage {
    const disk: bool
    const size: nat
    var data: seq<bv8>
    var pos: nat
    var closed: bool

    ghost predicate Valid()
      reads this
    {
      !closed ==> size == |data|
    }

    constructor (data: seq<bv8>, disk: bool, stats: DiskCacheStats)
      modifies stats
      ensures Valid() && !closed && this.data == data && pos == 0 && this.disk == disk && size == |data|
      ensures stats.View() ==
              if disk then old(stats.View()).(diskFiles := old(stats.activeDiskFiles) + 1,
                                              diskBytes := old(stats.currentDiskUsageBytes) + |data|)
              else old(stats.View()).(buffers := old(stats.activeMemoryBuffers) + 1,
                                      bufferBytes := old(stats.currentMemoryUsageBytes) + |data|)
    {
      this.data, this.disk, this.size, this.pos, this.closed := data, disk, |data|, 0, false;
      new;
      if disk {
        stats.IncrementDiskFiles(|data|);
      } else {
        stats.IncrementMemoryBuffers(|data|);
      }
    }

    /** None stands for the "storage is closed" error. */
    method Read(n: nat) returns (r: Option<seq<bv8>>)
      requires Valid()
      modifies this
      ensures Valid() && data == old(data) && closed == old(closed)
      ensures if closed then r == None && pos == old(pos)
              else r == Some(Chunk(data, old(pos), n)) && pos == old(pos) + |r.value|
    {
      if closed {
        return None;
      }
      var chunk := Chunk(data, pos, n);
      pos := pos + |chunk|;
      return Some(chunk);
    }

    /** None stands for an error, which leaves the position alone. */
    method Seek(offset: int, whence: Whence) returns (r: Option<nat>)
      requires Valid()
      modifies this`pos
      ensures Valid()
      ensures var base := if whence.FromStart? then 0 else if whence.FromCurrent? then old(pos) else |data|;
              if closed || base + offset < 0 then r == None && pos == old(pos)
              else r == Some(base + offset) && pos == base + offset
    {
      if closed {
        return None;
      }
      var base := if whence.FromStart? then 0 else if whence.FromCurrent? then pos else |data|;
      if base + offset < 0 {
        return None;
      }
      pos := base + offset;
      return Some(pos);
    }

    /** A file is read from the start and its position put back, so reading everything disturbs nobody. */
    method Bytes() returns (r: Option<seq<bv8>>)
      requires Valid()
      modifies this`pos
      ensures Valid() && pos == old(pos)
      ensures r == if closed then None else Some(data)
    {
      if closed {
        return None;
      }
      if disk {
        var current := pos;
        pos := 0;
        var all := Chunk(data, pos, size);
        assert all == data;
        pos := pos + |all|;
        pos := current;
        return Some(all);
      }
      return Some(data);
    }

    /** Only the first Close gives the bytes back. */
    method Close(stats: DiskCacheStats)
      requires Valid()
      modifies this`closed, stats
      ensures Valid() && closed
      ensures stats.View() ==
              if old(closed) then old(stats.View())
              else if disk then old(stats.View()).(diskFiles := Clamp(old(stats.activeDiskFiles) - 1),
                                                   diskBytes := Clamp(old(stats.currentDiskUsageBytes) - size))
              else old(stats.View()).(buffers := old(stats.activeMemoryBuffers) - 1,
                                      bufferBytes := old(stats.currentMemoryUsageBytes) - size)
    {
      if !closed {
        closed := true;
        if disk {
          stats.DecrementDiskFiles(size);
        } else {
          stats.DecrementMemoryBuffers(size);
        }
      }
    }
  }

  // ---------- Interleavings: every atomic counter update is its own step ----------

  /** Checked: the cap check passed and the file is being written. Counted and Closing: one of the two
      counters is updated and the other is not. Failed: the file could not be written. */
  datatype Phase = Checked | Counted | Open | Closing | Closed | Failed

  /** `size` is what the cap was checked for until the bytes are written, and what was written after. */
  datatype Body = Body(owner: nat, disk: bool, phase: Phase, size: nat)

  /** What follows the Close of the stored body: CleanupBodyStorage ends, ReplaceRequestBody goes on. */
  datatype Next = Done | ReplaceWith(size: nat)

  /** Where the call that a request is making stands. `known`: the bytes were at hand when the cap was checked;
      otherwise only their declared length was. `keep`: the bytes are cached in the context as well. */
  datatype Pc =
    | Idle
    | Reading                                        // the reader is drained into memory
    | Creating(size: nat, keep: bool)                // CreateBodyStorage, before its check
    | Filling(body: nat, known: bool, keep: bool)    // a file was admitted and is being written
    | Counting(body: nat, keep: bool)                // the storage is counted, its bytes are not
    | Ending(body: nat, next: Next)                  // waiting for a Close to return

  /** The two keys of a request's context: the stored body and the length of the cached bytes. */
  datatype Context = Context(storage: Option<nat>, bytes: Option<nat>, pc: Pc)

  datatype System = System(bodies: seq<Body>, stats: Stats, contexts: map<nat, Context>)

  datatype Config = Config(enabled: bool, threshold: int, cap: int)

  datatype Event =
    | GetBody(request: nat, declared: int)                 // GetRequestBody
    | Replace(request: nat, size: nat)                     // ReplaceRequestBody
    | Cleanup(request: nat)                                // CleanupBodyStorage
    | Drained(request: nat, length: Option<nat>)           // the reader ended, or failed or was too long
    | Admit(request: nat)                                  // the check of CreateBodyStorage
    | Write(request: nat, written: nat)                    // the temporary file is there: count it
    | Fail(request: nat)                                   // it is not: fall back to memory, or report an error
    | AddSize(request: nat)                                // count its size and store the body in the context
    | Close(body: nat)                                     // somebody else closes a storage
    | FinishClose(body: nat)                               // the second counter update of a Close
    | AfterClose(request: nat)                             // the Close that the request waits for has returned

  /** The check of CreateBodyStorage and IsDiskCacheAvailable. */
  predicate Admits(cfg: Config, s: System, size: int) {
    cfg.enabled && size >= cfg.threshold && s.stats.diskBytes + size <= cfg.cap
  }

  function ContextOf(contexts: map<nat, Context>, request: nat): Context {
    if request in contexts then contexts[request] else Context(None, None, Idle)
  }

  function WithContext(s: System, request: nat, c: Context): System {
    s.(contexts := s.contexts[request := c])
  }

  function WithPc(s: System, request: nat, pc: Pc): System {
    WithContext(s, request, ContextOf(s.contexts, request).(pc := pc))
  }

  function NewDisk(s: System, request: nat, size: nat, known: bool, keep: bool): System {
    WithPc(s.(bodies := s.bodies + [Body(request, true, Checked, size)]), request, Filling(|s.bodies|, known, keep))
  }

  function NewMemory(s: System, request: nat, size: nat, keep: bool): System {
    WithPc(s.(bodies := s.bodies + [Body(request, false, Counted, size)],
              stats := s.stats.(buffers := s.stats.buffers + 1)),
           request, Counting(|s.bodies|, keep))
  }

  function SetPhase(s: System, i: nat, phase: Phase): seq<Body>
    requires i < |s.bodies|
  {
    s.bodies[i := s.bodies[i].(phase := phase)]
  }

  /** Close: only the first call passes the swap of the closed flag. */
  function StartClose(s: System, i: nat): System {
    if i < |s.bodies| && s.bodies[i].phase == Open then
      s.(bodies := SetPhase(s, i, Closing),
         stats := if s.bodies[i].disk then s.stats.(diskFiles := Clamp(s.stats.diskFiles - 1))
                  else s.stats.(buffers := s.stats.buffers - 1))
    else s
  }

  /** One atomic step; a step its request is not ready for changes nothing. */
  function Step(cfg: Config, s: System, e: Event): System {
    match e
    case GetBody(r, declared) =>
      var c := ContextOf(s.contexts, r);
      if c.pc != Idle || c.storage.Some? then s
      else if c.bytes.Some? then WithPc(s, r, Creating(c.bytes.value, false))
      else if declared > 0 && Admits(cfg, s, declared) then NewDisk(s, r, declared, false, false)
      else WithPc(s, r, Reading)
    case Replace(r, size) =>
      var c := ContextOf(s.contexts, r);
      if c.pc != Idle then s
      else if c.storage.Some? then WithPc(StartClose(s, c.storage.value), r, Ending(c.storage.value, ReplaceWith(size)))
      else WithContext(s, r, Context(None, None, Creating(size, true)))
    case Cleanup(r) =>
      var c := ContextOf(s.contexts, r);
      if c.pc != Idle || c.storage.None? then s
      else WithPc(StartClose(s, c.storage.value), r, Ending(c.storage.value, Done))
    case Drained(r, length) =>
      if ContextOf(s.contexts, r).pc != Reading then s
      else WithPc(s, r, if length.Some? then Creating(length.value, false) else Idle)
    case Admit(r) =>
      var pc := ContextOf(s.contexts, r).pc;
      if !pc.Creating? then s
      else if Admits(cfg, s, pc.size) then NewDisk(s, r, pc.size, true, pc.keep)
      else NewMemory(s, r, pc.size, pc.keep)
    case Write(r, written) =>
      var pc := ContextOf(s.contexts, r).pc;
      if !pc.Filling? || pc.body >= |s.bodies| then s else
        var b := s.bodies[pc.body];
        var counted := b.(phase := Counted, size := if pc.known then b.size else written);
        WithPc(s.(bodies := s.bodies[pc.body := counted], stats := s.stats.(diskFiles := s.stats.diskFiles + 1)),
               r, Counting(pc.body, pc.keep))
    case Fail(r) =>
      var pc := ContextOf(s.contexts, r).pc;
      if !pc.Filling? || pc.body >= |s.bodies| then s else
        var size := s.bodies[pc.body].size;
        var next := if pc.known then Creating(size, pc.keep) else Idle;
        var failed := WithPc(s.(bodies := SetPhase(s, pc.body, Failed)), r, next);
        if pc.known then NewMemory(failed, r, size, pc.keep) else failed
    case AddSize(r) =>
      var c := ContextOf(s.contexts, r);
      if !c.pc.Counting? || c.pc.body >= |s.bodies| then s else
        var i := c.pc.body;
        var b := s.bodies[i];
        WithContext(
          s.(bodies := SetPhase(s, i, Open),
             stats := if b.disk then s.stats.(diskBytes := s.stats.diskBytes + b.size)
                      else s.stats.(bufferBytes := s.stats.bufferBytes + b.size)),
          r, Context(Some(i), if c.pc.keep then Some(b.size) else c.bytes, Idle))
    case Close(i) => StartClose(s, i)
    case FinishClose(i) =>
      if i >= |s.bodies| || s.bodies[i].phase != Closing then s else
        var b := s.bodies[i];
        s.(bodies := SetPhase(s, i, Closed),
           stats := if b.disk then s.stats.(diskBytes := Clamp(s.stats.diskBytes - b.size))
                    else s.stats.(bufferBytes := s.stats.bufferBytes - b.size))
    case AfterClose(r) =>
      var c := ContextOf(s.contexts, r);
      if !c.pc.Ending? || c.pc.body >= |s.bodies| || s.bodies[c.pc.body].phase != Closed then s
      else
        match c.pc.next
        case Done => WithContext(s, r, Context(None, c.bytes, Idle))
        case ReplaceWith(size) => WithContext(s, r, Context(None, None, Creating(size, true)))
  }

  function Initial(): System {
    System([], Stats(0, 0, 0, 0), map[])
  }

  /** The system after the events, from a given state. */
  function RunFrom(cfg: Config, s: System, events: seq<Event>): System {
    if events == [] then s else Step(cfg, RunFrom(cfg, s, events[..|events| - 1]), events[|events| - 1])
  }

  function Run(cfg: Config, events: seq<Event>): System {
    RunFrom(cfg, Initial(), events)
  }

  // ---------- What the counters should say ----------

  function Plus(a: Stats, b: Stats): Stats {
    Stats(a.diskFiles + b.diskFiles, a.diskBytes + b.diskBytes, a.buffers + b.buffers, a.bufferBytes + b.bufferBytes)
  }

  function Minus(a: Stats, b: Stats): Stats {
    Stats(a.diskFiles - b.diskFiles, a.diskBytes - b.diskBytes, a.buffers - b.buffers, a.bufferBytes - b.bufferBytes)
  }

  /** What a storage adds to each of the four counters in its phase. */
  function Tally(b: Body): Stats {
    var one := if b.phase == Counted || b.phase == Open then 1 else 0;
    var bytes := if b.phase == Open || b.phase == Closing then b.size else 0;
    if b.disk then Stats(one, bytes, 0, 0) else Stats(0, 0, one, bytes)
  }

  function Total(bodies: seq<Body>): Stats {
    if bodies == [] then Stats(0, 0, 0, 0) else Plus(Total(bodies[..|bodies| - 1]), Tally(bodies[|bodies| - 1]))
  }

  lemma TotalAppend(bodies: seq<Body>, b: Body)
    ensures Total(bodies + [b]) == Plus(Total(bodies), Tally(b))
  {
    assert (bodies + [b])[..|bodies|] == bodies;
  }

  lemma {:induction false} TotalUpdate(bodies: seq<Body>, i: nat, b: Body)
    requires i < |bodies|
    ensures Total(bodies[i := b]) == Plus(Minus(Total(bodies), Tally(bodies[i])), Tally(b))
  {
    hide Tally;
    var n := |bodies| - 1;
    var init, after := bodies[..n], bodies[i := b];
    if i == n {
      assert after[..n] == init && after[n] == b;
    } else {
      assert after[..n] == init[i := b] && after[n] == bodies[n];
      TotalUpdate(init, i, b);
    }
  }

  lemma {:induction false} TotalAtLeast(bodies: seq<Body>, i: nat)
    requires i < |bodies|
    ensures Tally(bodies[i]).diskFiles <= Total(bodies).diskFiles
            && Tally(bodies[i]).diskBytes <= Total(bodies).diskBytes
  {
    TotalNonNegative(bodies[..|bodies| - 1]);
    if i < |bodies| - 1 {
      TotalAtLeast(bodies[..|bodies| - 1], i);
    }
  }

  lemma {:induction false} TotalNonNegative(bodies: seq<Body>)
    ensures Total(bodies).diskFiles >= 0 && Total(bodies).diskBytes >= 0
  {
    if bodies != [] {
      TotalNonNegative(bodies[..|bodies| - 1]);
    }
  }

  // ---------- Ownership ----------

  predicate Live(b: Body) {
    b.phase != Closed && b.phase != Failed
  }

  /** The context names the live storage: under its key once it is open, in the running call before. */
  predicate HeldBy(b: Body, i: nat, c: Context) {
    match b.phase
    case Checked => c.pc.Filling? && c.pc.body == i
    case Counted => c.pc.Counting? && c.pc.body == i
    case _ => c.storage == Some(i)
  }

  /** What a context names exists, is the request's own, and is in the phase that the call has reached. */
  predicate Coherent(bodies: seq<Body>, request: nat, c: Context) {
    && (c.storage.Some? ==>
          && c.storage.value < |bodies| && bodies[c.storage.value].owner == request
          && bodies[c.storage.value].phase in {Open, Closing, Closed}
          && (c.pc == Idle || (c.pc.Ending? && c.pc.body == c.storage.value)))
    && (c.pc.Filling? ==>
          && c.pc.body < |bodies| && bodies[c.pc.body].owner == request
          && bodies[c.pc.body].phase == Checked && bodies[c.pc.body].disk)
    && (c.pc.Counting? ==>
          c.pc.body < |bodies| && bodies[c.pc.body].owner == request && bodies[c.pc.body].phase == Counted)
    && (c.pc.Ending? ==> c.storage == Some(c.pc.body))
  }

  /** Every live storage is named by its request's context, and contexts name nothing else. */
  ghost predicate Owned(bodies: seq<Body>, contexts: map<nat, Context>) {
    && (forall i :: 0 <= i < |bodies| && Live(bodies[i]) ==> HeldBy(bodies[i], i, ContextOf(contexts, bodies[i].owner)))
    && (forall r: nat :: Coherent(bodies, r, ContextOf(contexts, r)))
  }

  /** A request that is not creating or holding anything takes a new storage. */
  lemma OwnNew(bodies: seq<Body>, contexts: map<nat, Context>, b: Body, c: Context)
    requires Owned(bodies, contexts)
    requires var before := ContextOf(contexts, b.owner);
             before.storage.None? && !before.pc.Filling? && !before.pc.Counting?
    requires Live(b) && HeldBy(b, |bodies|, c) && Coherent(bodies + [b], b.owner, c)
    ensures Owned(bodies + [b], contexts[b.owner := c])
  {
    var more, next := bodies + [b], contexts[b.owner := c];
    forall i | 0 <= i < |more| && Live(more[i]) ensures HeldBy(more[i], i, ContextOf(next, more[i].owner)) {
      if i < |bodies| {
        assert HeldBy(bodies[i], i, ContextOf(contexts, bodies[i].owner));
      }
    }
    forall r: nat ensures Coherent(more, r, ContextOf(next, r)) {
      assert Coherent(bodies, r, ContextOf(contexts, r));
    }
  }

  /** A request's live storage moves on together with the request's context. */
  lemma OwnMove(bodies: seq<Body>, contexts: map<nat, Context>, i: nat, b: Body, c: Context)
    requires Owned(bodies, contexts) && i < |bodies| && Live(bodies[i]) && b.owner == bodies[i].owner
    requires (Live(b) ==> HeldBy(b, i, c)) && Coherent(bodies[i := b], b.owner, c)
    ensures Owned(bodies[i := b], contexts[b.owner := c])
  {
    var next, after := bodies[i := b], contexts[b.owner := c];
    forall j | 0 <= j < |next| && Live(next[j]) ensures HeldBy(next[j], j, ContextOf(after, next[j].owner)) {
      if j != i {
        OneLiveEach(bodies, contexts, i, j);
      }
    }
    forall r: nat ensures Coherent(next, r, ContextOf(after, r)) {
      assert Coherent(bodies, r, ContextOf(contexts, r));
    }
  }

  /** Only the context moves on. */
  lemma OwnContext(bodies: seq<Body>, contexts: map<nat, Context>, request: nat, c: Context)
    requires Owned(bodies, contexts) && Coherent(bodies, request, c)
    requires forall i :: 0 <= i < |bodies| && Live(bodies[i]) && bodies[i].owner == request ==> HeldBy(bodies[i], i, c)
    ensures Owned(bodies, contexts[request := c])
  {
    var after := contexts[request := c];
    forall r: nat ensures Coherent(bodies, r, ContextOf(after, r)) {
      assert Coherent(bodies, r, ContextOf(contexts, r));
    }
  }

  /** A request has at most one live storage. */
  lemma OneLiveEach(bodies: seq<Body>, contexts: map<nat, Context>, i: nat, j: nat)
    requires Owned(bodies, contexts) && i < |bodies| && j < |bodies| && Live(bodies[i]) && Live(bodies[j])
    ensures bodies[i].owner == bodies[j].owner ==> i == j
  {
    assert HeldBy(bodies[i], i, ContextOf(contexts, bodies[i].owner));
    assert HeldBy(bodies[j], j, ContextOf(contexts, bodies[j].owner));
    assert Coherent(bodies, bodies[i].owner, ContextOf(contexts, bodies[i].owner));
  }

  /** Everything a run keeps: ownership, and counters that match the storages. */
  ghost predicate Consistent(s: System) {
    Owned(s.bodies, s.contexts) && s.stats == Total(s.bodies)
  }

  /** The clamps at 0 leave the counters as they are, whichever storage is closed next. */
  ghost predicate ClampsIdle(s: System) {
    && (forall i :: 0 <= i < |s.bodies| && s.bodies[i].disk && s.bodies[i].phase == Open ==> s.stats.diskFiles - 1 >= 0)
    && (forall i :: 0 <= i < |s.bodies| && s.bodies[i].disk && s.bodies[i].phase == Closing ==>
          s.stats.diskBytes - s.bodies[i].size >= 0)
  }

  lemma ClampsAreIdle(s: System)
    requires s.stats == Total(s.bodies)
    ensures ClampsIdle(s)
  {
    hide Total;
    forall i | 0 <= i < |s.bodies|
      ensures s.stats.diskFiles >= Tally(s.bodies[i]).diskFiles && s.stats.diskBytes >= Tally(s.bodies[i]).diskBytes
    {
      TotalAtLeast(s.bodies, i);
    }
  }

  lemma NewKeeps(s: System, b: Body, c: Context)
    requires Consistent(s) && Live(b) && HeldBy(b, |s.bodies|, c) && Coherent(s.bodies + [b], b.owner, c)
    requires var before := ContextOf(s.contexts, b.owner);
             before.storage.None? && !before.pc.Filling? && !before.pc.Counting?
    ensures Consistent(System(s.bodies + [b], Plus(s.stats, Tally(b)), s.contexts[b.owner := c]))
  {
    hide Owned, Total;
    OwnNew(s.bodies, s.contexts, b, c);
    TotalAppend(s.bodies, b);
  }

  lemma MoveKeeps(s: System, i: nat, b: Body, c: Context)
    requires Consistent(s) && i < |s.bodies| && Live(s.bodies[i]) && b.owner == s.bodies[i].owner
    requires (Live(b) ==> HeldBy(b, i, c)) && Coherent(s.bodies[i := b], b.owner, c)
    ensures Consistent(System(s.bodies[i := b], Plus(Minus(s.stats, Tally(s.bodies[i])), Tally(b)),
            s.contexts[b.owner := c]))
  {
    hide Owned, Total;
    OwnMove(s.bodies, s.contexts, i, b, c);
    TotalUpdate(s.bodies, i, b);
  }

  lemma ContextFacts(s: System, r: nat)
    requires Consistent(s)
    ensures Coherent(s.bodies, r, ContextOf(s.contexts, r))
  {
  }

  /** The context of a request without a live storage may change in any coherent way. */
  lemma ContextKeeps(s: System, r: nat, c: Context)
    requires Consistent(s) && Coherent(s.bodies, r, c)
    requires var before := ContextOf(s.contexts, r);
             && !before.pc.Filling? && !before.pc.Counting?
             && (before.storage.Some? && Live(s.bodies[before.storage.value]) ==> c.storage == before.storage)
    ensures Consistent(WithContext(s, r, c))
  {
    hide Total;
    var before := ContextOf(s.contexts, r);
    forall i | 0 <= i < |s.bodies| && Live(s.bodies[i]) && s.bodies[i].owner == r ensures HeldBy(s.bodies[i], i, c) {
      assert HeldBy(s.bodies[i], i, before);
    }
    OwnContext(s.bodies, s.contexts, r, c);
  }

  /** Closing an open storage leaves it in its owner's context until the call returns. */
  lemma StartCloseKeeps(s: System, i: nat)
    requires Consistent(s)
    ensures Consistent(StartClose(s, i))
    ensures StartClose(s, i).contexts == s.contexts && |StartClose(s, i).bodies| == |s.bodies|
    ensures forall r: nat :: Coherent(s.bodies, r, ContextOf(s.contexts, r)) ==>
                               Coherent(StartClose(s, i).bodies, r, ContextOf(s.contexts, r))
  {
    hide Owned, Total;
    if i < |s.bodies| && s.bodies[i].phase == Open {
      var owner := s.bodies[i].owner;
      var b, c := s.bodies[i].(phase := Closing), ContextOf(s.contexts, owner);
      OpenIsStored(s, i);
      ContextFacts(s, owner);
      ClampsAreIdle(s);
      MoveKeeps(s, i, b, c);
      assert s.contexts[owner := c] == s.contexts;
      assert StartClose(s, i) ==
             System(s.bodies[i := b], Plus(Minus(s.stats, Tally(s.bodies[i])), Tally(b)), s.contexts);
    }
  }

  lemma OpenIsStored(s: System, i: nat)
    requires Consistent(s) && i < |s.bodies| && (s.bodies[i].phase == Open || s.bodies[i].phase == Closing)
    ensures s.bodies[i].owner in s.contexts && s.contexts[s.bodies[i].owner].storage == Some(i)
  {
    hide Total;
    assert HeldBy(s.bodies[i], i, ContextOf(s.contexts, s.bodies[i].owner));
  }

  lemma AdmitKeeps(cfg: Config, s: System, r: nat, size: nat, known: bool, keep: bool)
    requires Consistent(s)
    requires var c := ContextOf(s.contexts, r); c.storage.None? && !c.pc.Filling? && !c.pc.Counting?
    ensures Consistent(NewDisk(s, r, size, known, keep)) && Consistent(NewMemory(s, r, size, keep))
  {
    hide Owned, Total;
    var c := ContextOf(s.contexts, r);
    NewKeeps(s, Body(r, true, Checked, size), c.(pc := Filling(|s.bodies|, known, keep)));
    NewKeeps(s, Body(r, false, Counted, size), c.(pc := Counting(|s.bodies|, keep)));
  }

  lemma CallKeepsConsistent(cfg: Config, s: System, e: Event)
    requires Consistent(s) && (e.GetBody? || e.Replace? || e.Cleanup? || e.Drained? || e.Admit? || e.AfterClose?)
    ensures Consistent(Step(cfg, s, e))
  {
    hide Owned, Total, Admits, StartClose;
    var r := e.request;
    var c := ContextOf(s.contexts, r);
    ContextFacts(s, r);
    match e {
      case GetBody(_, declared) =>
        if c.pc == Idle && c.storage.None? {
          if c.bytes.None? && declared > 0 && Admits(cfg, s, declared) {
            AdmitKeeps(cfg, s, r, declared, false, false);
          } else {
            ContextKeeps(s, r, c.(pc := if c.bytes.Some? then Creating(c.bytes.value, false) else Reading));
          }
        }
      case Replace(_, size) =>
        if c.pc == Idle && c.storage.Some? {
          CloseCallKeeps(s, r, ReplaceWith(size));
        } else if c.pc == Idle {
          ContextKeeps(s, r, Context(None, None, Creating(size, true)));
        }
      case Cleanup(_) =>
        if c.pc == Idle && c.storage.Some? {
          CloseCallKeeps(s, r, Done);
        }
      case Drained(_, length) =>
        if c.pc == Reading {
          ContextKeeps(s, r, c.(pc := if length.Some? then Creating(length.value, false) else Idle));
        }
      case Admit(_) =>
        if c.pc.Creating? {
          AdmitKeeps(cfg, s, r, c.pc.size, true, c.pc.keep);
        }
      case AfterClose(_) =>
        if c.pc.Ending? && s.bodies[c.pc.body].phase == Closed {
          ContextKeeps(s, r, Context(None, c.bytes, Idle));
          if c.pc.next.ReplaceWith? {
            ContextKeeps(s, r, Context(None, None, Creating(c.pc.next.size, true)));
          }
        }
    }
  }

  lemma CloseCallKeeps(s: System, r: nat, next: Next)
    requires Consistent(s) && ContextOf(s.contexts, r).pc == Idle && ContextOf(s.contexts, r).storage.Some?
    ensures var i := ContextOf(s.contexts, r).storage.value; Consistent(WithPc(StartClose(s, i), r, Ending(i, next)))
  {
    hide Owned, Total, StartClose;
    var c := ContextOf(s.contexts, r);
    var i := c.storage.value;
    ContextFacts(s, r);
    StartCloseKeeps(s, i);
    ContextKeeps(StartClose(s, i), r, c.(pc := Ending(i, next)));
  }

  lemma WriteKeeps(cfg: Config, s: System, r: nat, written: nat)
    requires Consistent(s)
    ensures Consistent(Step(cfg, s, Write(r, written)))
  {
    hide Owned, Total;
    var c := ContextOf(s.contexts, r);
    ContextFacts(s, r);
    if c.pc.Filling? {
      var i := c.pc.body;
      var b := s.bodies[i].(phase := Counted, size := if c.pc.known then s.bodies[i].size else written);
      MoveKeeps(s, i, b, c.(pc := Counting(i, c.pc.keep)));
    }
  }

  lemma FailKeeps(cfg: Config, s: System, r: nat)
    requires Consistent(s)
    ensures Consistent(Step(cfg, s, Fail(r)))
  {
    hide Owned, Total;
    var c := ContextOf(s.contexts, r);
    ContextFacts(s, r);
    if c.pc.Filling? {
      var i := c.pc.body;
      var b, size := s.bodies[i].(phase := Failed), s.bodies[i].size;
      var after := c.(pc := if c.pc.known then Creating(size, c.pc.keep) else Idle);
      MoveKeeps(s, i, b, after);
      var failed := System(s.bodies[i := b], Plus(Minus(s.stats, Tally(s.bodies[i])), Tally(b)),
        s.contexts[r := after]);
      if c.pc.known {
        AdmitKeeps(cfg, failed, r, size, true, c.pc.keep);
      }
    }
  }

  lemma AddSizeKeeps(cfg: Config, s: System, r: nat)
    requires Consistent(s)
    ensures Consistent(Step(cfg, s, AddSize(r)))
  {
    hide Owned, Total;
    var c := ContextOf(s.contexts, r);
    ContextFacts(s, r);
    if c.pc.Counting? {
      var i := c.pc.body;
      var b := s.bodies[i];
      MoveKeeps(s, i, b.(phase := Open), Context(Some(i), if c.pc.keep then Some(b.size) else c.bytes, Idle));
    }
  }

  lemma FinishCloseKeeps(cfg: Config, s: System, i: nat)
    requires Consistent(s)
    ensures Consistent(Step(cfg, s, FinishClose(i)))
  {
    hide Owned, Total;
    if i < |s.bodies| && s.bodies[i].phase == Closing {
      var owner := s.bodies[i].owner;
      var c := ContextOf(s.contexts, owner);
      OpenIsStored(s, i);
      ContextFacts(s, owner);
      ClampsAreIdle(s);
      MoveKeeps(s, i, s.bodies[i].(phase := Closed), c);
      assert s.contexts[owner := c] == s.contexts;
    }
  }

  /** Every step of every call keeps the counters, the storages and their owners in agreement; single ownership comes
      from what the calls do with the context, and the clamps are never needed. */
  lemma StepKeepsConsistent(cfg: Config, s: System, e: Event)
    requires Consistent(s)
    ensures ClampsIdle(s) && Consistent(Step(cfg, s, e))
  {
    hide Consistent, Step;
    assert s.stats == Total(s.bodies) by {
      CountersAgree(s);
    }
    ClampsAreIdle(s);
    match e {
      case Write(r, written) => WriteKeeps(cfg, s, r, written);
      case Fail(r) => FailKeeps(cfg, s, r);
      case AddSize(r) => AddSizeKeeps(cfg, s, r);
      case Close(i) => CloseKeeps(cfg, s, i);
      case FinishClose(i) => FinishCloseKeeps(cfg, s, i);
      case _ => CallKeepsConsistent(cfg, s, e);
    }
  }

  lemma CountersAgree(s: System)
    requires Consistent(s)
    ensures s.stats == Total(s.bodies)
  {
  }

  lemma CloseKeeps(cfg: Config, s: System, i: nat)
    requires Consistent(s)
    ensures Consistent(Step(cfg, s, Close(i)))
  {
    hide Consistent, StartClose;
    StartCloseKeeps(s, i);
  }

  lemma {:induction false} RunIsConsistent(cfg: Config, events: seq<Event>)
    ensures Consistent(Run(cfg, events))
  {
    hide Step;
    if events == [] {
      NothingIsConsistent();
    } else {
      hide Consistent;
      RunIsConsistent(cfg, events[..|events| - 1]);
      StepKeepsConsistent(cfg, Run(cfg, events[..|events| - 1]), events[|events| - 1]);
    }
  }

  lemma NothingIsConsistent()
    ensures Consistent(Initial())
  {
  }

  /** In every interleaving the clamps never fire, each request owns at most one live storage, and the
      counters are what the storages add up to. */
  lemma CountersMatchStorages(cfg: Config, events: seq<Event>)
    ensures var s := Run(cfg, events);
            && ClampsIdle(s)
            && s.stats == Total(s.bodies)
            && (forall i, j | 0 <= i < |s.bodies| && 0 <= j < |s.bodies| && Live(s.bodies[i]) && Live(s.bodies[j]) ::
                  s.bodies[i].owner == s.bodies[j].owner ==> i == j)
  {
    hide Owned, Total, Run, Live;
    var s := Run(cfg, events);
    RunIsConsistent(cfg, events);
    ClampsAreIdle(s);
    forall i, j | 0 <= i < |s.bodies| && 0 <= j < |s.bodies| && Live(s.bodies[i]) && Live(s.bodies[j])
      ensures s.bodies[i].owner == s.bodies[j].owner ==> i == j
    {
      OneLiveEach(s.bodies, s.contexts, i, j);
    }
  }

  /** Closing a storage a second time changes nothing. */
  lemma SecondCloseIsFree(cfg: Config, s: System, i: nat)
    ensures RunFrom(cfg, s, [Close(i), FinishClose(i), Close(i), FinishClose(i)]) ==
            RunFrom(cfg, s, [Close(i), FinishClose(i)])
  {
    var once, twice := [Close(i), FinishClose(i)], [Close(i), FinishClose(i), Close(i), FinishClose(i)];
    assert twice[..3][..2] == once && once[..1] == [Close(i)] && [Close(i)][..0] == [];
    assert twice[..3] == [Close(i), FinishClose(i), Close(i)];
    var closed := RunFrom(cfg, s, once);
    assert RunFrom(cfg, s, []) == s;
    assert RunFrom(cfg, s, [Close(i)]) == StartClose(s, i);
    assert closed == Step(cfg, StartClose(s, i), FinishClose(i));
    assert RunFrom(cfg, s, twice[..3]) == closed;
  }

  lemma {:induction false} NoneLiveTotal(bodies: seq<Body>)
    requires forall i :: 0 <= i < |bodies| ==> !Live(bodies[i])
    ensures Total(bodies) == Stats(0, 0, 0, 0)
  {
    if bodies != [] {
      var last := bodies[|bodies| - 1];
      assert !Live(last) && Tally(last) == Stats(0, 0, 0, 0);
      NoneLiveTotal(bodies[..|bodies| - 1]);
    }
  }

  /** Once no call is running and every request has been cleaned up, all four usage counters are back at 0. */
  lemma CleanedUpMeansZero(cfg: Config, events: seq<Event>)
    requires forall r <- Run(cfg, events).contexts ::
               Run(cfg, events).contexts[r].storage.None? && Run(cfg, events).contexts[r].pc == Idle
    ensures Run(cfg, events).stats == Stats(0, 0, 0, 0)
  {
    hide Run, Total;
    var s := Run(cfg, events);
    RunIsConsistent(cfg, events);
    forall i | 0 <= i < |s.bodies| ensures !Live(s.bodies[i]) {
      assert Live(s.bodies[i]) ==> HeldBy(s.bodies[i], i, ContextOf(s.contexts, s.bodies[i].owner));
    }
    NoneLiveTotal(s.bodies);
  }
  // ---------- The cap under interleaving ----------

  /** Disk storages whose bytes are checked for but not yet counted. */
  predicate InFlight(b: Body) {
    b.disk && (b.phase == Checked || b.phase == Counted)
  }

  function Flying(bodies: seq<Body>): nat {
    if bodies == [] then 0 else Flying(bodies[..|bodies| - 1]) + (if InFlight(bodies[|bodies| - 1]) then 1 else 0)
  }

  function FlyingBytes(bodies: seq<Body>): nat {
    if bodies == [] then 0 else
      var last := bodies[|bodies| - 1];
      FlyingBytes(bodies[..|bodies| - 1]) + (if InFlight(last) then last.size else 0)
  }

  lemma FlyingAppend(bodies: seq<Body>, b: Body)
    ensures Flying(bodies + [b]) == Flying(bodies) + (if InFlight(b) then 1 else 0)
    ensures FlyingBytes(bodies + [b]) == FlyingBytes(bodies) + (if InFlight(b) then b.size else 0)
  {
    assert (bodies + [b])[..|bodies|] == bodies;
  }

  lemma {:induction false} FlyingUpdate(bodies: seq<Body>, i: nat, b: Body)
    requires i < |bodies|
    ensures Flying(bodies[i := b]) ==
            Flying(bodies) - (if InFlight(bodies[i]) then 1 else 0) + (if InFlight(b) then 1 else 0)
    ensures FlyingBytes(bodies[i := b]) ==
            FlyingBytes(bodies) - (if InFlight(bodies[i]) then bodies[i].size else 0)
              + (if InFlight(b) then b.size else 0)
  {
    var init := bodies[..|bodies| - 1];
    if i == |bodies| - 1 {
      assert bodies[i := b][..i] == init;
    } else {
      assert bodies[i := b][..|bodies| - 1] == init[i := b];
      FlyingUpdate(init, i, b);
    }
  }

  /** Disk storages in flight are of at most `most` bytes. */
  predicate Fits(bodies: seq<Body>, most: nat) {
    forall i :: 0 <= i < |bodies| && InFlight(bodies[i]) ==> bodies[i].size <= most
  }

  lemma {:induction false} FlyingAtMost(bodies: seq<Body>, most: nat)
    requires Fits(bodies, most)
    ensures FlyingBytes(bodies) <= Flying(bodies) * most
  {
    if bodies != [] {
      var n := Flying(bodies[..|bodies| - 1]);
      FlyingAtMost(bodies[..|bodies| - 1], most);
      assert (n + 1) * most == n * most + most;
      assert InFlight(bodies[|bodies| - 1]) ==> bodies[|bodies| - 1].size <= most;
    }
  }

  /** What a step admits to disk: bytes at hand, or a declared length that is positive. */
  function Admitted(cfg: Config, s: System, e: Event): Option<nat> {
    match e
    case GetBody(r, declared) =>
      var c := ContextOf(s.contexts, r);
      if c == Context(None, None, Idle) && declared > 0 && Admits(cfg, s, declared) then Some(declared) else None
    case Admit(r) =>
      var pc := ContextOf(s.contexts, r).pc;
      if pc.Creating? && Admits(cfg, s, pc.size) then Some(pc.size) else None
    case _ => None
  }

  /** Nothing larger than `most` is admitted, and no reader yields more than the length it was admitted for. */
  predicate Honest(cfg: Config, s: System, e: Event, most: nat) {
    && (Admitted(cfg, s, e).Some? ==> Admitted(cfg, s, e).value <= most)
    && (e.Write? ==>
          var pc := ContextOf(s.contexts, e.request).pc;
          pc.Filling? && !pc.known && pc.body < |s.bodies| ==> e.written <= s.bodies[pc.body].size)
  }

  /** At most `k` creations are ever between check and commit, and every event is honest. */
  ghost predicate Bounded(cfg: Config, events: seq<Event>, k: nat, most: nat) {
    && (forall n :: 0 <= n <= |events| ==> Flying(Run(cfg, events[..n]).bodies) <= k)
    && (forall n :: 0 <= n < |events| ==> Honest(cfg, Run(cfg, events[..n]), events[n], most))
  }

  /** The disk bytes in use or checked for. */
  function Load(s: System): int {
    s.stats.diskBytes + FlyingBytes(s.bodies)
  }

  ghost predicate CapInv(s: System, cap: nat, k: nat, most: nat) {
    Fits(s.bodies, most) && Load(s) <= cap + (k - 1) * most
  }

  lemma StartCloseLoad(s: System, i: nat, most: nat)
    requires Fits(s.bodies, most)
    ensures var s' := StartClose(s, i);
            Fits(s'.bodies, most) && Load(s') == Load(s) && Flying(s'.bodies) == Flying(s.bodies)
  {
    hide Flying, FlyingBytes;
    if i < |s.bodies| && s.bodies[i].phase == Open {
      FlyingUpdate(s.bodies, i, s.bodies[i].(phase := Closing));
    }
  }

  lemma NewLoad(s: System, r: nat, size: nat, known: bool, keep: bool)
    ensures var s' := NewDisk(s, r, size, known, keep);
            Load(s') == Load(s) + size && Flying(s'.bodies) == Flying(s.bodies) + 1
    ensures var s' := NewMemory(s, r, size, keep);
            Load(s') == Load(s) && Flying(s'.bodies) == Flying(s.bodies)
  {
    hide Flying, FlyingBytes;
    FlyingAppend(s.bodies, Body(r, true, Checked, size));
    FlyingAppend(s.bodies, Body(r, false, Counted, size));
  }

  /** A step adds nothing to the checked or used disk bytes except what it admits under the cap. */
  lemma StepLoad(cfg: Config, s: System, e: Event, most: nat)
    requires Consistent(s) && Fits(s.bodies, most) && Honest(cfg, s, e, most)
    ensures var s', admitted := Step(cfg, s, e), Admitted(cfg, s, e);
            && Fits(s'.bodies, most)
            && (if admitted.None? then Load(s') <= Load(s)
                else Load(s') == Load(s) + admitted.value && Flying(s'.bodies) == Flying(s.bodies) + 1)
  {
    hide Total, Owned, Flying, FlyingBytes, Admits, StartClose;
    match e {
      case GetBody(r, declared) => NewLoad(s, r, if declared > 0 then declared else 0, false, false);
      case Admit(r) =>
        var pc := ContextOf(s.contexts, r).pc;
        if pc.Creating? {
          NewLoad(s, r, pc.size, true, pc.keep);
        }
      case Fail(r) => FailLoad(cfg, s, r, most);
      case Write(r, written) => CommitLoad(cfg, s, e, most);
      case AddSize(r) => CommitLoad(cfg, s, e, most);
      case FinishClose(i) => CommitLoad(cfg, s, e, most);
      case Close(i) => StartCloseLoad(s, i, most);
      case Replace(r, _) => CloseCallLoad(s, r, most);
      case Cleanup(r) => CloseCallLoad(s, r, most);
      case _ =>
    }
  }

  lemma CommitLoad(cfg: Config, s: System, e: Event, most: nat)
    requires Consistent(s) && Fits(s.bodies, most) && Honest(cfg, s, e, most)
             && (e.Write? || e.AddSize? || e.FinishClose?)
    ensures Fits(Step(cfg, s, e).bodies, most) && Load(Step(cfg, s, e)) <= Load(s)
  {
    hide Total, Owned, Flying, FlyingBytes;
    if e.FinishClose? {
      if e.body < |s.bodies| && s.bodies[e.body].phase == Closing {
        ClampsAreIdle(s);
        FlyingUpdate(s.bodies, e.body, s.bodies[e.body].(phase := Closed));
      }
    } else {
      ContextFacts(s, e.request);
      var pc := ContextOf(s.contexts, e.request).pc;
      if e.Write? && pc.Filling? {
        var b := s.bodies[pc.body];
        FlyingUpdate(s.bodies, pc.body, b.(phase := Counted, size := if pc.known then b.size else e.written));
      } else if e.AddSize? && pc.Counting? {
        FlyingUpdate(s.bodies, pc.body, s.bodies[pc.body].(phase := Open));
      }
    }
  }

  lemma CloseCallLoad(s: System, r: nat, most: nat)
    requires Fits(s.bodies, most)
    ensures var c := ContextOf(s.contexts, r);
            c.storage.Some? ==>
              Fits(StartClose(s, c.storage.value).bodies, most) && Load(StartClose(s, c.storage.value)) == Load(s)
  {
    hide StartClose;
    var c := ContextOf(s.contexts, r);
    if c.storage.Some? {
      StartCloseLoad(s, c.storage.value, most);
    }
  }

  lemma FailLoad(cfg: Config, s: System, r: nat, most: nat)
    requires Consistent(s) && Fits(s.bodies, most)
    ensures var s' := Step(cfg, s, Fail(r)); Fits(s'.bodies, most) && Load(s') <= Load(s)
  {
    hide Total, Owned, Flying, FlyingBytes;
    ContextFacts(s, r);
    var pc := ContextOf(s.contexts, r).pc;
    if pc.Filling? {
      var size := s.bodies[pc.body].size;
      FlyingUpdate(s.bodies, pc.body, s.bodies[pc.body].(phase := Failed));
      if pc.known {
        NewLoad(WithPc(s.(bodies := SetPhase(s, pc.body, Failed)), r, Creating(size, pc.keep)), r, size, true, pc.keep);
      }
    }
  }

  lemma StepKeepsCap(cfg: Config, s: System, e: Event, k: nat, most: nat)
    requires Consistent(s) && cfg.cap >= 0 && k >= 1 && CapInv(s, cfg.cap, k, most)
    requires Honest(cfg, s, e, most) && Flying(Step(cfg, s, e).bodies) <= k
    ensures CapInv(Step(cfg, s, e), cfg.cap, k, most)
  {
    hide Total, Owned, Flying, FlyingBytes, Step, Fits;
    StepLoad(cfg, s, e, most);
    FlyingAtMost(s.bodies, most);
    if Flying(s.bodies) + 1 <= k {
      FewerFlying(Flying(s.bodies), k, most);
    }
  }

  lemma FewerFlying(n: nat, k: nat, most: nat)
    requires n + 1 <= k
    ensures n * most <= (k - 1) * most
  {
  }

  lemma {:induction false} CapHolds(cfg: Config, events: seq<Event>, k: nat, most: nat)
    requires cfg.cap >= 0 && k >= 1 && Bounded(cfg, events, k, most)
    ensures CapInv(Run(cfg, events), cfg.cap, k, most)
  {
    hide Step, Flying, Honest;
    if events == [] {
      assert (k - 1) * most >= 0;
    } else {
      hide CapInv;
      var n := |events| - 1;
      var prefix := events[..n];
      assert forall m :: 0 <= m <= n ==> prefix[..m] == events[..m];
      CapHolds(cfg, prefix, k, most);
      RunIsConsistent(cfg, prefix);
      assert events[..|events|] == events;
      StepKeepsCap(cfg, Run(cfg, prefix), events[n], k, most);
    }
  }

  /** Disk usage never exceeds the cap by more than what the other creations in flight can add; one
      creation at a time keeps it exactly. */
  lemma DiskUsageBounded(cfg: Config, events: seq<Event>, k: nat, most: nat)
    requires cfg.cap >= 0 && k >= 1 && Bounded(cfg, events, k, most)
    ensures Run(cfg, events).stats.diskBytes <= cfg.cap + (k - 1) * most
    ensures k == 1 ==> Run(cfg, events).stats.diskBytes <= cfg.cap
  {
    hide Total, Flying, FlyingBytes, Bounded, Run;
    CapHolds(cfg, events, k, most);
  }

  // ---------- What an understated length does ----------

  /** A request whose body is not read yet creates a storage alone, from whatever state the others left: the usage grows
      by what the reader yields, so the cap is kept exactly when that fits into what is left of it. */
  lemma LoneCreationKeepsCap(cfg: Config, s: System, r: nat, declared: int, written: nat)
    requires Consistent(s) && ContextOf(s.contexts, r) == Context(None, None, Idle)
    requires declared > 0 && Admits(cfg, s, declared)
    ensures var usage := RunFrom(cfg, s, [GetBody(r, declared), Write(r, written), AddSize(r)]).stats.diskBytes;
            && usage == s.stats.diskBytes + written
            && (usage <= cfg.cap <==> written <= cfg.cap - s.stats.diskBytes)
  {
    hide Consistent, Admits;
    var first, second, all := [GetBody(r, declared)], [GetBody(r, declared), Write(r, written)],
      [GetBody(r, declared), Write(r, written), AddSize(r)];
    assert all[..2] == second && second[..1] == first && first[..0] == [];
    var s1 := RunFrom(cfg, s, first);
    assert RunFrom(cfg, s, []) == s;
    assert s1 == Step(cfg, s, GetBody(r, declared));
    assert s1 == NewDisk(s, r, declared, false, false);
    var s2 := RunFrom(cfg, s, second);
    assert s2.bodies[|s.bodies|] == Body(r, true, Counted, written);
    assert ContextOf(s2.contexts, r).pc == Counting(|s.bodies|, false);
  }

  /** A reader that yields more than its declared length breaks the cap with one creation at a time. */
  lemma UnderstatedLengthBreaksCap(cap: nat, written: nat)
    requires 1 <= cap < written
    ensures Run(Config(true, 0, cap), [GetBody(0, 1), Write(0, written), AddSize(0)]).stats.diskBytes > cap
  {
    hide RunFrom;
    NothingIsConsistent();
    LoneCreationKeepsCap(Config(true, 0, cap), Initial(), 0, 1, written);
  }

  // ---------- The bound cannot be improved ----------

  /** `n` replacements of `size` bytes, of which the first `m` are finished and the others still checked. */
  function Crowd(n: nat, m: nat, size: nat): System {
    System(seq(n, i requires i >= 0 => Body(i, true, if i < m then Open else Checked, size)), Stats(m, m * size, 0, 0),
           CrowdContexts(n, m, size))
  }

  function CrowdContexts(n: nat, m: nat, size: nat): (r: map<nat, Context>)
    ensures forall i :: i in r <==> 0 <= i < n
    ensures forall i <- r ::
              r[i] == if i < m then Context(Some(i), Some(size), Idle) else Context(None, None, Filling(i, true, true))
  {
    map i | 0 <= i < n ::
      if i < m then Context(Some(i), Some(size), Idle) else Context(None, None, Filling(i, true, true))
  }

  /** Everybody checks the cap first and writes afterwards. */
  function Rush(n: nat, m: nat, size: nat): seq<Event>
    requires m <= n
  {
    if m > 0 then Rush(n, m - 1, size) + [Write(m - 1, size)] + [AddSize(m - 1)]
    else if n > 0 then Rush(n - 1, 0, size) + [Replace(n - 1, size)] + [Admit(n - 1)]
    else []
  }

  lemma CrowdGrows(cfg: Config, n: nat, size: nat)
    requires cfg.enabled && cfg.threshold <= size <= cfg.cap
    ensures Step(cfg, Step(cfg, Crowd(n, 0, size), Replace(n, size)), Admit(n)) == Crowd(n + 1, 0, size)
  {
    var s, next := Crowd(n, 0, size), Crowd(n + 1, 0, size);
    assert next.bodies == s.bodies + [Body(n, true, Checked, size)];
    assert next.contexts == s.contexts[n := Context(None, None, Filling(n, true, true))];
  }

  /** Writing and committing one storage that a known body fills. */
  lemma Commits(cfg: Config, s: System, r: nat, i: nat, size: nat)
    requires ContextOf(s.contexts, r).pc == Filling(i, true, true)
    requires i < |s.bodies| && s.bodies[i] == Body(r, true, Checked, size)
    ensures Step(cfg, Step(cfg, s, Write(r, size)), AddSize(r)) ==
            System(
              s.bodies[i := Body(r, true, Open, size)],
              s.stats.(diskFiles := s.stats.diskFiles + 1, diskBytes := s.stats.diskBytes + size),
              s.contexts[r := Context(Some(i), Some(size), Idle)])
  {
  }

  lemma CrowdCommits(cfg: Config, n: nat, m: nat, size: nat)
    requires m < n
    ensures Step(cfg, Step(cfg, Crowd(n, m, size), Write(m, size)), AddSize(m)) == Crowd(n, m + 1, size)
  {
    hide Step;
    var s, next := Crowd(n, m, size), Crowd(n, m + 1, size);
    Commits(cfg, s, m, m, size);
    assert next.bodies == s.bodies[m := Body(m, true, Open, size)];
    assert next.contexts == s.contexts[m := Context(Some(m), Some(size), Idle)];
    assert (m + 1) * size == m * size + size;
  }

  lemma {:induction false} RushReaches(cfg: Config, n: nat, m: nat, size: nat)
    requires m <= n && cfg.enabled && cfg.threshold <= size <= cfg.cap
    ensures Run(cfg, Rush(n, m, size)) == Crowd(n, m, size)
    decreases n, m
  {
    hide Step, Crowd, Run;
    if m > 0 {
      var before := Rush(n, m - 1, size);
      RunTwice(cfg, before, Write(m - 1, size), AddSize(m - 1));
      RushReaches(cfg, n, m - 1, size);
      CrowdCommits(cfg, n, m - 1, size);
    } else if n > 0 {
      var before := Rush(n - 1, 0, size);
      RunTwice(cfg, before, Replace(n - 1, size), Admit(n - 1));
      RushReaches(cfg, n - 1, 0, size);
      CrowdGrows(cfg, n - 1, size);
    } else {
      NoCrowd(cfg, size);
    }
  }

  lemma RunTwice(cfg: Config, events: seq<Event>, first: Event, second: Event)
    ensures Run(cfg, events + [first] + [second]) == Step(cfg, Step(cfg, Run(cfg, events), first), second)
  {
    hide Step;
    var mid := events + [first];
    assert mid[..|events|] == events && (mid + [second])[..|mid|] == mid;
    assert RunFrom(cfg, Initial(), mid) == Step(cfg, RunFrom(cfg, Initial(), events), first);
  }

  lemma NoCrowd(cfg: Config, size: nat)
    ensures Crowd(0, 0, size) == Initial() == Run(cfg, [])
  {
  }

  /** Only replacements by `size` bytes, and the steps of creating them. */
  predicate IsUniform(e: Event, size: nat) {
    match e
    case Replace(_, n) => n == size
    case Admit(_) | Write(_, _) | AddSize(_) => true
    case _ => false
  }

  predicate Uniform(events: seq<Event>, size: nat) {
    forall i :: 0 <= i < |events| ==> IsUniform(events[i], size)
  }

  function Admissions(events: seq<Event>): nat {
    if events == [] then 0 else Admissions(events[..|events| - 1]) + (if events[|events| - 1].Admit? then 1 else 0)
  }

  /** Every creation under way is of `size` bytes at hand. */
  ghost predicate Steady(s: System, size: nat, n: nat) {
    && |s.bodies| <= n
    && forall r <- s.contexts ::
         var pc := s.contexts[r].pc;
         (pc.Creating? ==> pc.size == size) && (pc.Filling? ==> pc.known)
  }

  lemma StaysSteady(cfg: Config, s: System, e: Event, size: nat, n: nat)
    requires Steady(s, size, n) && IsUniform(e, size)
    ensures Steady(Step(cfg, s, e), size, if e.Admit? then n + 1 else n)
  {
  }

  lemma {:induction false} UniformRun(cfg: Config, events: seq<Event>, size: nat)
    requires Uniform(events, size)
    ensures Steady(Run(cfg, events), size, Admissions(events))
  {
    if events != [] {
      hide Step, Steady;
      var prefix := events[..|events| - 1];
      UniformRun(cfg, prefix, size);
      StaysSteady(cfg, Run(cfg, prefix), events[|events| - 1], size, Admissions(prefix));
    }
  }

  lemma {:induction false} FewerAdmissions(events: seq<Event>, n: nat)
    requires n <= |events|
    ensures Admissions(events[..n]) <= Admissions(events)
  {
    if n == |events| {
      assert events[..n] == events;
    } else {
      assert events[..|events| - 1][..n] == events[..n];
      FewerAdmissions(events[..|events| - 1], n);
    }
  }

  lemma {:induction false} FlyingAtMostAll(bodies: seq<Body>)
    ensures Flying(bodies) <= |bodies|
  {
    if bodies != [] {
      FlyingAtMostAll(bodies[..|bodies| - 1]);
    }
  }

  lemma TwoMore(events: seq<Event>, first: Event, second: Event)
    ensures var n := (if first.Admit? then 1 else 0) + (if second.Admit? then 1 else 0);
            Admissions(events + [first] + [second]) == Admissions(events) + n
  {
    var mid := events + [first];
    assert mid[..|events|] == events && (mid + [second])[..|mid|] == mid;
  }

  lemma {:induction false} RushIsUniform(n: nat, m: nat, size: nat)
    requires m <= n
    ensures Uniform(Rush(n, m, size), size) && Admissions(Rush(n, m, size)) == n
    decreases n, m
  {
    hide Admissions;
    if m > 0 {
      RushIsUniform(n, m - 1, size);
      TwoMore(Rush(n, m - 1, size), Write(m - 1, size), AddSize(m - 1));
    } else if n > 0 {
      RushIsUniform(n - 1, 0, size);
      TwoMore(Rush(n - 1, 0, size), Replace(n - 1, size), Admit(n - 1));
    } else {
      NoAdmissions();
    }
  }

  lemma NoAdmissions()
    ensures Admissions([]) == 0
  {
  }

  /** The rush meets the assumptions of the bound. */
  lemma RushIsBounded(cfg: Config, k: nat, size: nat)
    ensures Bounded(cfg, Rush(k, k, size), k, size)
  {
    hide Rush, Flying, Run, Admissions;
    var events := Rush(k, k, size);
    RushIsUniform(k, k, size);
    forall n | 0 <= n <= |events|
      ensures Flying(Run(cfg, events[..n]).bodies) <= k && Steady(Run(cfg, events[..n]), size, k)
    {
      UniformRun(cfg, events[..n], size);
      FewerAdmissions(events, n);
      FlyingAtMostAll(Run(cfg, events[..n]).bodies);
    }
    forall n | 0 <= n < |events| ensures Honest(cfg, Run(cfg, events[..n]), events[n], size) {
      assert Steady(Run(cfg, events[..n]), size, k) && IsUniform(events[n], size);
    }
  }

  /** For every number of creations and every size there is a cap and a run that reaches the bound. */
  lemma BoundIsReached(k: nat, most: nat)
    requires k >= 1
    ensures var cfg := Config(true, 0, most);
            && Bounded(cfg, Rush(k, k, most), k, most)
            && Run(cfg, Rush(k, k, most)).stats.diskBytes == cfg.cap + (k - 1) * most
  {
    hide Bounded, Run, Rush;
    RushIsBounded(Config(true, 0, most), k, most);
    RushReaches(Config(true, 0, most), k, k, most);
  }
}
