/** The in-memory sliding-window limiter of common/rate-limit.go.

    `InMemoryRateLimiter` keeps one bounded queue of accepted times per key, and a background
    evictor drops whole queues. The runs below interleave requests and sweeps over one shared store
    (both hold the mutex, so each is one step) with a clock that never goes back, and compare the
    store with the obvious limiter: an unbounded log of everything ever accepted.
 */
module RateLimiter {
  import opened Seqs

  type Store = map<string, seq<int>>

  /** `Request` reads the head of a full queue, so a stored queue must not be empty. */
  predicate NonEmptyQueues(store: Store) {
    forall k <- store :: |store[k]| > 0
  }

  function RequestStep(store: Store, key: string, max: nat, duration: int, now: int): (r: (Store, bool))
    requires NonEmptyQueues(store)
    ensures NonEmptyQueues(r.0)
  {
    if key !in store then (store[key := [now]], true)
    else if |store[key]| < max then (store[key := store[key] + [now]], true)
    else if now - store[key][0] >= duration then (store[key := store[key][1..] + [now]], true)
    else (store, false)
  }

  predicate Expired(queue: seq<int>, expiration: nat, now: int) {
    |queue| == 0 || now - queue[|queue| - 1] > expiration
  }

  function SweepStep(store: Store, expiration: nat, now: int): Store {
    map k | k in store && !Expired(store[k], expiration, now) :: store[k]
  }

  class InMemoryRateLimiter {
    var store: Store
    const expiration: nat

    constructor (expiration: nat)
      ensures store == map[] && this.expiration == expiration
    {
      store := map[];
      this.expiration := expiration;
    }

    method Request(key: string, max: nat, duration: int, now: int) returns (ok: bool)
      requires NonEmptyQueues(store)
      modifies this
      ensures NonEmptyQueues(store)
      ensures (store, ok) == RequestStep(old(store), key, max, duration, now)
    {
      if key in store {
        var queue := store[key];
        if |queue| < max {
          store := store[key := queue + [now]];
          return true;
        }
        if now - queue[0] >= duration {
          queue := queue[1..];
          store := store[key := queue + [now]];
          return true;
        }
        return false;
      }
      var queue: seq<int> := [];
      queue := queue + [now];
      assert queue == [now];
      store := store[key := queue];
      return true;
    }

    /** One pass of the evictor: every key is looked at once, in any order. */
    method ClearExpiredItems(now: int)
      modifies this
      ensures store == SweepStep(old(store), expiration, now)
    {
      var todo := store.Keys;
      while todo != {}
        invariant todo <= old(store).Keys
        invariant store == map k | k in old(store) && (k in todo || !Expired(old(store)[k], expiration, now)) ::
                  old(store)[k]
        decreases todo
      {
        var key :| key in todo;
        var queue := store[key];
        if |queue| == 0 || now - queue[|queue| - 1] > expiration {
          store := store - {key};
        }
        todo := todo - {key};
      }
    }
  }

  // ---------- Runs ----------

  datatype Limit = Limit(max: nat, duration: int)

  /** The limit each key is always asked with, and whether the evictor runs (`Init` starts it only
      for a positive expiration; `expiration` is that duration in whole seconds). */
  datatype Config = Config(limits: string -> Limit, evicts: bool, expiration: nat)

  datatype Event = Request(key: string, now: int) | Sweep(now: int)

  /** Times never decrease, and sweeps happen only where the evictor runs. */
  ghost predicate Schedule(cfg: Config, events: seq<Event>) {
    && (forall i, j :: 0 <= i < j < |events| ==> events[i].now <= events[j].now)
    && (forall e <- events :: e.Sweep? ==> cfg.evicts)
  }

  datatype Run = Run(store: Store, verdicts: seq<bool>)

  ghost function LimiterEvent(cfg: Config, before: Run, e: Event): (r: Run)
    requires NonEmptyQueues(before.store)
    ensures NonEmptyQueues(r.store)
  {
    match e
    case Request(key, now) =>
      var limit := cfg.limits(key);
      var (store, ok) := RequestStep(before.store, key, limit.max, limit.duration, now);
      Run(store, before.verdicts + [ok])
    case Sweep(now) => Run(SweepStep(before.store, cfg.expiration, now), before.verdicts)
  }

  ghost function Limiter(cfg: Config, events: seq<Event>): (r: Run)
    ensures NonEmptyQueues(r.store)
  {
    if events == [] then Run(map[], [])
    else LimiterEvent(cfg, Limiter(cfg, events[..|events| - 1]), events[|events| - 1])
  }

  // ---------- The reference: an unbounded log of accepted times ----------

  function LogOf(log: Store, key: string): seq<int> {
    if key in log then log[key] else []
  }

  function YoungerThan(now: int, duration: int): int -> bool {
    t => now - t < duration
  }

  function InWindow(start: int, duration: int): int -> bool {
    t => start <= t < start + duration
  }

  /** How many accepted requests are younger than `duration` at `now`. */
  ghost function Young(log: seq<int>, now: int, duration: int): nat {
    Count(log, YoungerThan(now, duration))
  }

  ghost function ReferenceEvent(cfg: Config, before: Run, e: Event): Run {
    match e
    case Request(key, now) =>
      var limit := cfg.limits(key);
      var log := LogOf(before.store, key);
      if Young(log, now, limit.duration) < limit.max
      then Run(before.store[key := log + [now]], before.verdicts + [true])
      else Run(before.store, before.verdicts + [false])
    case Sweep(_) => before
  }

  ghost function Reference(cfg: Config, events: seq<Event>): Run {
    if events == [] then Run(map[], [])
    else ReferenceEvent(cfg, Reference(cfg, events[..|events| - 1]), events[|events| - 1])
  }

  ghost predicate Sorted(log: seq<int>) {
    forall i, j :: 0 <= i < j < |log| ==> log[i] <= log[j]
  }

  ghost predicate Old(log: seq<int>, upto: nat, now: int, duration: int)
    requires upto <= |log|
  {
    forall i :: 0 <= i < upto ==> now - log[i] >= duration
  }

  /** A queue is the end of its log, and what was dropped from a queue that still has room is old. */
  ghost predicate Tracks(queue: seq<int>, log: seq<int>, limit: Limit, clock: int) {
    && 0 < |queue| <= limit.max && |queue| <= |log|
    && queue == log[|log| - |queue|..]
    && (|queue| < limit.max ==> Old(log, |log| - |queue|, clock, limit.duration))
  }

  ghost predicate KeyInv(cfg: Config, store: Store, logs: Store, clock: int, key: string) {
    var log := LogOf(logs, key);
    && Sorted(log) && (forall t <- log :: t <= clock)
    && (if key in store then Tracks(store[key], log, cfg.limits(key), clock)
        else Old(log, |log|, clock, cfg.limits(key).duration))
  }

  ghost predicate Sound(cfg: Config, key: string) {
    cfg.limits(key).max >= 1 && (cfg.evicts ==> cfg.limits(key).duration <= cfg.expiration + 1)
  }

  lemma SortedAppend(log: seq<int>, now: int)
    requires Sorted(log) && forall t <- log :: t <= now
    ensures Sorted(log + [now]) && forall t <- log + [now] :: t <= now
  {
    forall i, j | 0 <= i < j < |log + [now]| ensures (log + [now])[i] <= (log + [now])[j] {
      assert log + [now] == (log + [now])[..|log|] + [now];
      assert log[i] in log;
    }
  }

  lemma YoungAtMost(log: seq<int>, upto: nat, now: int, duration: int)
    requires upto <= |log| && Old(log, upto, now, duration)
    ensures Young(log, now, duration) <= |log| - upto
  {
    var p := YoungerThan(now, duration);
    CountSplit(log, upto, p);
    CountNone(log[..upto], p);
    CountAtMost(log[upto..], p);
  }

  lemma YoungAtLeast(log: seq<int>, from: nat, now: int, duration: int)
    requires from < |log| && Sorted(log) && now - log[from] < duration
    ensures Young(log, now, duration) >= |log| - from
  {
    var p := YoungerThan(now, duration);
    CountSplit(log, from, p);
    CountAll(log[from..], p);
  }

  /** One request on a stored queue, with or without room, answered from the queue alone. */
  lemma QueueAgrees(queue: seq<int>, log: seq<int>, limit: Limit, clock: int, now: int)
    requires Tracks(queue, log, limit, clock) && clock <= now && Sorted(log)
    ensures Young(log, now, limit.duration) < limit.max <==> |queue| < limit.max || now - queue[0] >= limit.duration
  {
    var from := |log| - |queue|;
    if |queue| < limit.max {
      YoungAtMost(log, from, now, limit.duration);
    } else if now - log[from] >= limit.duration {
      assert Old(log, from + 1, now, limit.duration);
      YoungAtMost(log, from + 1, now, limit.duration);
    } else {
      YoungAtLeast(log, from, now, limit.duration);
    }
  }

  lemma QueueKeepsTrack(queue: seq<int>, log: seq<int>, limit: Limit, clock: int, now: int)
    requires Tracks(queue, log, limit, clock) && clock <= now
    ensures |queue| < limit.max ==> Tracks(queue + [now], log + [now], limit, now)
    ensures |queue| == limit.max ==> Tracks(queue[1..] + [now], log + [now], limit, now)
  {
    var from := |log| - |queue|;
    assert queue + [now] == (log + [now])[from..];
    assert queue[1..] + [now] == (log + [now])[from + 1..];
  }

  /** One request: the queue and the log give the same verdict and stay in step. */
  lemma RequestAgrees(cfg: Config, store: Store, logs: Store, clock: int, key: string, now: int)
    requires NonEmptyQueues(store) && Sound(cfg, key) && clock <= now
    requires KeyInv(cfg, store, logs, clock, key)
    ensures var limit := cfg.limits(key);
            var log := LogOf(logs, key);
            var (store', ok) := RequestStep(store, key, limit.max, limit.duration, now);
            && ok == (Young(log, now, limit.duration) < limit.max)
            && KeyInv(cfg, store', if ok then logs[key := log + [now]] else logs, now, key)
  {
    var limit := cfg.limits(key);
    var log := LogOf(logs, key);
    SortedAppend(log, now);
    if key !in store {
      YoungAtMost(log, |log|, now, limit.duration);
    } else {
      QueueAgrees(store[key], log, limit, clock, now);
      QueueKeepsTrack(store[key], log, limit, clock, now);
    }
  }

  /** Time passing, a request on another key, and an eviction all keep a key's invariant. */
  lemma OtherStepKeeps(cfg: Config, store: Store, logs: Store, clock: int, store': Store, logs': Store, now: int,
      key: string)
    requires KeyInv(cfg, store, logs, clock, key) && clock <= now && Sound(cfg, key)
    requires LogOf(logs', key) == LogOf(logs, key)
    requires || (key in store && key in store' && store'[key] == store[key])
             || (key !in store && key !in store')
             || (cfg.evicts && key in store && key !in store' && Expired(store[key], cfg.expiration, now))
    ensures KeyInv(cfg, store', logs', now, key)
  {
    if key in store && key !in store' {
      var log := LogOf(logs, key);
      assert store[key][|store[key]| - 1] == log[|log| - 1];
    }
  }

  ghost function Clock(events: seq<Event>, start: int): int {
    if events == [] then start else events[|events| - 1].now
  }

  ghost predicate InStep(cfg: Config, limited: Run, reference: Run, clock: int) {
    && limited.verdicts == reference.verdicts && NonEmptyQueues(limited.store)
    && forall k :: KeyInv(cfg, limited.store, reference.store, clock, k)
  }

  /** One event, whichever it is, keeps the store and the log in step. */
  lemma EventKeepsStep(cfg: Config, limited: Run, reference: Run, clock: int, e: Event)
    requires InStep(cfg, limited, reference, clock) && clock <= e.now
    requires (forall k :: Sound(cfg, k)) && (e.Sweep? ==> cfg.evicts)
    ensures InStep(cfg, LimiterEvent(cfg, limited, e), ReferenceEvent(cfg, reference, e), e.now)
  {
    hide KeyInv, Sound, Young;
    var limited', reference' := LimiterEvent(cfg, limited, e), ReferenceEvent(cfg, reference, e);
    if e.Request? {
      RequestAgrees(cfg, limited.store, reference.store, clock, e.key, e.now);
    }
    forall k ensures KeyInv(cfg, limited'.store, reference'.store, e.now, k) {
      if !(e.Request? && k == e.key) {
        OtherStepKeeps(cfg, limited.store, reference.store, clock, limited'.store, reference'.store, e.now, k);
      }
    }
  }

  lemma {:induction false} RunInvariant(cfg: Config, events: seq<Event>, start: int)
    requires Schedule(cfg, events) && forall k :: Sound(cfg, k)
    requires events != [] ==> start <= events[0].now
    ensures InStep(cfg, Limiter(cfg, events), Reference(cfg, events), Clock(events, start))
  {
    if events != [] {
      var prefix, last := events[..|events| - 1], events[|events| - 1];
      assert last in events;
      RunInvariant(cfg, prefix, start);
      EventKeepsStep(cfg, Limiter(cfg, prefix), Reference(cfg, prefix), Clock(prefix, start), last);
    }
  }

  // ---------- Exactly when the limiter is right ----------

  /** A schedule on which the limiter and the log part ways, for a key whose limit is unsound. */
  function Burst(key: string, n: nat): seq<Event> {
    Repeat(Request(key, 0), n)
  }

  function Repeat<T>(x: T, n: nat): (s: seq<T>)
    ensures |s| == n && forall i :: 0 <= i < n ==> s[i] == x
  {
    if n == 0 then [] else Repeat(x, n - 1) + [x]
  }

  ghost function Breaking(cfg: Config, key: string): seq<Event> {
    if cfg.limits(key).max == 0 then [Request(key, 0)]
    else Burst(key, cfg.limits(key).max) + [Sweep(cfg.expiration + 1)] + [Request(key, cfg.expiration + 1)]
  }

  lemma {:induction false} BurstAccepted(cfg: Config, key: string, n: nat)
    requires n <= cfg.limits(key).max
    ensures Limiter(cfg, Burst(key, n)).verdicts == Reference(cfg, Burst(key, n)).verdicts == Repeat(true, n)
    ensures LogOf(Reference(cfg, Burst(key, n)).store, key) == LogOf(Limiter(cfg, Burst(key, n)).store, key) ==
            Repeat(0, n)
    ensures n == 0 ==> key !in Limiter(cfg, Burst(key, n)).store
  {
    hide Count;
    if n > 0 {
      var burst := Burst(key, n);
      var prefix := Burst(key, n - 1);
      assert burst[..n - 1] == prefix && burst[n - 1] == Request(key, 0);
      BurstAccepted(cfg, key, n - 1);
      BurstStep(cfg, Limiter(cfg, prefix), Reference(cfg, prefix), key);
    }
  }

  lemma BurstStep(cfg: Config, limited: Run, reference: Run, key: string)
    requires NonEmptyQueues(limited.store) && LogOf(limited.store, key) == LogOf(reference.store, key)
    requires |LogOf(limited.store, key)| < cfg.limits(key).max
    ensures var log := LogOf(limited.store, key);
            var limited' := LimiterEvent(cfg, limited, Request(key, 0));
            var reference' := ReferenceEvent(cfg, reference, Request(key, 0));
            && LogOf(limited'.store, key) == LogOf(reference'.store, key) == log + [0]
            && limited'.verdicts == limited.verdicts + [true] && reference'.verdicts == reference.verdicts + [true]
  {
    CountAtMost(LogOf(reference.store, key), YoungerThan(0, cfg.limits(key).duration));
  }

  lemma EarlyEviction(cfg: Config, key: string)
    requires cfg.evicts && cfg.limits(key).max >= 1 && cfg.limits(key).duration > cfg.expiration + 1
    ensures var swept := Burst(key, cfg.limits(key).max) + [Sweep(cfg.expiration + 1)];
            && key !in Limiter(cfg, swept).store
            && |Limiter(cfg, swept).verdicts| == cfg.limits(key).max
            && Young(LogOf(Reference(cfg, swept).store, key), cfg.expiration + 1,
              cfg.limits(key).duration) >= cfg.limits(key).max
  {
    var limit := cfg.limits(key);
    var burst := Burst(key, limit.max);
    var swept := burst + [Sweep(cfg.expiration + 1)];
    assert swept[..|swept| - 1] == burst;
    BurstAccepted(cfg, key, limit.max);
    var log := LogOf(Reference(cfg, swept).store, key);
    assert log == Repeat(0, limit.max);
    YoungAtLeast(log, 0, cfg.expiration + 1, limit.duration);
  }

  lemma BreakingIsSchedule(cfg: Config, key: string)
    requires !Sound(cfg, key)
    ensures Schedule(cfg, Breaking(cfg, key))
  {
    var events, n := Breaking(cfg, key), cfg.limits(key).max;
    if n > 0 {
      assert forall i :: 0 <= i < n ==> events[i] == Request(key, 0);
      assert events[n] == Sweep(cfg.expiration + 1) && events[n + 1] == Request(key, cfg.expiration + 1);
    }
  }

  lemma BreakingBreaks(cfg: Config, key: string)
    requires !Sound(cfg, key)
    ensures Limiter(cfg, Breaking(cfg, key)).verdicts != Reference(cfg, Breaking(cfg, key)).verdicts
  {
    var limit := cfg.limits(key);
    var events := Breaking(cfg, key);
    LastVerdicts(cfg, events);
    if limit.max == 0 {
      assert events[..|events| - 1] == [];
    } else {
      assert events[..|events| - 1] == Burst(key, limit.max) + [Sweep(cfg.expiration + 1)];
      EarlyEviction(cfg, key);
    }
  }

  lemma LastVerdicts(cfg: Config, events: seq<Event>)
    requires events != [] && events[|events| - 1].Request?
    ensures var last := events[|events| - 1];
            var limit := cfg.limits(last.key);
            var store := Limiter(cfg, events[..|events| - 1]).store;
            var log := LogOf(Reference(cfg, events[..|events| - 1]).store, last.key);
            var limited, reference := Limiter(cfg, events).verdicts, Reference(cfg, events).verdicts;
            && limited != [] && reference != []
            && limited[|limited| - 1] == RequestStep(store, last.key, limit.max, limit.duration, last.now).1
            && reference[|reference| - 1] == (Young(log, last.now, limit.duration) < limit.max)
  {
  }

  /** In every interleaving of requests and evictions the limiter answers like the unbounded log,
      exactly when every limit allows at least one request and no evictor can drop a queue before
      its newest entry has left the window. */
  lemma LimiterRefinesLog(cfg: Config)
    ensures (forall events: seq<Event> :: Schedule(cfg, events) ==>
            Limiter(cfg, events).verdicts == Reference(cfg, events).verdicts)
       <==> (forall k :: Sound(cfg, k))
  {
    if forall k :: Sound(cfg, k) {
      forall events: seq<Event> | Schedule(cfg, events)
        ensures Limiter(cfg, events).verdicts == Reference(cfg, events).verdicts
      {
        RunInvariant(cfg, events, if events == [] then 0 else events[0].now);
      }
    } else {
      var k :| !Sound(cfg, k);
      BreakingIsSchedule(cfg, k);
      BreakingBreaks(cfg, k);
    }
  }

  // ---------- Safety over whole runs ----------

  ghost predicate Spaced(log: seq<int>, limit: Limit) {
    forall i, j :: 0 <= i && i + limit.max <= j < |log| ==> log[j] - log[i] >= limit.duration
  }

  lemma {:induction false} ReferenceSpaced(cfg: Config, events: seq<Event>, key: string, clock: int)
    requires Schedule(cfg, events) && (events != [] ==> events[|events| - 1].now <= clock)
    ensures var log := LogOf(Reference(cfg, events).store, key);
            Sorted(log) && (forall t <- log :: t <= clock) && Spaced(log, cfg.limits(key))
  {
    if events != [] {
      var prefix, last := events[..|events| - 1], events[|events| - 1];
      ReferenceSpaced(cfg, prefix, key, last.now);
      var log, limit := LogOf(Reference(cfg, prefix).store, key), cfg.limits(key);
      if last.Request? && last.key == key && Young(log, last.now, limit.duration) < limit.max {
        SortedAppend(log, last.now);
        forall i | 0 <= i && i + limit.max <= |log| ensures last.now - log[i] >= limit.duration {
          if last.now - log[i] < limit.duration {
            YoungAtLeast(log, i, last.now, limit.duration);
          }
        }
      }
    }
  }

  lemma {:induction false} SpacedWindow(log: seq<int>, limit: Limit, start: int)
    requires Sorted(log) && Spaced(log, limit)
    ensures Count(log, InWindow(start, limit.duration)) <= limit.max
    decreases |log|
  {
    var p := InWindow(start, limit.duration);
    if log != [] {
      var n := |log|;
      if p(log[n - 1]) {
        hide Count;
        LastInWindow(log, limit, start);
      } else {
        SpacedWindow(log[..n - 1], limit, start);
      }
    }
  }

  /** When the newest entry lies in the window, only the last `max` can. */
  lemma {:induction false} LastInWindow(log: seq<int>, limit: Limit, start: int)
    requires Sorted(log) && Spaced(log, limit) && log != [] && start <= log[|log| - 1] < start + limit.duration
    ensures Count(log, InWindow(start, limit.duration)) <= limit.max
  {
    hide Count;
    var p, n := InWindow(start, limit.duration), |log|;
    if n > limit.max {
      CountSplit(log, n - limit.max, p);
      CountAtMost(log[n - limit.max..], p);
      forall x | x in log[..n - limit.max] ensures !p(x) {
        var i :| 0 <= i < n - limit.max && log[i] == x;
        assert i + limit.max <= n - 1;
      }
      CountNone(log[..n - limit.max], p);
    } else {
      CountAtMost(log, p);
    }
  }

  /** Every accepted request of a run, in order: the times at which the limiter said yes to `key`. */
  ghost function Accepted(events: seq<Event>, verdicts: seq<bool>, key: string): seq<int> {
    if events == [] || verdicts == [] then [] else
      var last := events[|events| - 1];
      if last.Sweep? then Accepted(events[..|events| - 1], verdicts, key) else
        Accepted(events[..|events| - 1], verdicts[..|verdicts| - 1], key)
        + (if last.key == key && verdicts[|verdicts| - 1] then [last.now] else [])
  }

  /** What happens to one key depends on its own limit only: whatever the other limits are, its queue stays in step
      with its log, and the requests it accepted are its log. */
  lemma {:induction false} KeyInStep(cfg: Config, events: seq<Event>, key: string, start: int)
    requires Schedule(cfg, events) && Sound(cfg, key) && (events != [] ==> start <= events[0].now)
    ensures KeyInv(cfg, Limiter(cfg, events).store, Reference(cfg, events).store, Clock(events, start), key)
    ensures Accepted(events, Limiter(cfg, events).verdicts, key) == LogOf(Reference(cfg, events).store, key)
  {
    hide KeyInv, Sound, Young;
    if events == [] {
      NothingInStep(cfg, start, key);
    } else {
      var prefix, last := events[..|events| - 1], events[|events| - 1];
      assert last in events;
      KeyInStep(cfg, prefix, key, start);
      hide Limiter, Reference, Accepted, LimiterEvent, ReferenceEvent, Clock;
      EventKeepsKey(cfg, Limiter(cfg, prefix), Reference(cfg, prefix), Clock(prefix, start), last, key);
      AcceptedGrows(cfg, Limiter(cfg, prefix), prefix, last, key);
      LastEvent(cfg, events, start);
    }
  }

  lemma LastEvent(cfg: Config, events: seq<Event>, start: int)
    requires events != []
    ensures var prefix, last := events[..|events| - 1], events[|events| - 1];
            && events == prefix + [last] && Clock(events, start) == last.now
            && Limiter(cfg, events) == LimiterEvent(cfg, Limiter(cfg, prefix), last)
            && Reference(cfg, events) == ReferenceEvent(cfg, Reference(cfg, prefix), last)
  {
  }

  /** The limiter said yes to a request for the key. */
  ghost predicate SaysYes(cfg: Config, before: Run, e: Event, key: string)
    requires NonEmptyQueues(before.store)
  {
    var after := LimiterEvent(cfg, before, e).verdicts;
    e.Request? && e.key == key && after != [] && after[|after| - 1]
  }

  lemma EventKeepsKey(cfg: Config, limited: Run, reference: Run, clock: int, e: Event, key: string)
    requires NonEmptyQueues(limited.store) && KeyInv(cfg, limited.store, reference.store, clock, key)
    requires clock <= e.now && Sound(cfg, key) && (e.Sweep? ==> cfg.evicts)
    ensures KeyInv(cfg, LimiterEvent(cfg, limited, e).store, ReferenceEvent(cfg, reference, e).store, e.now, key)
    ensures LogOf(ReferenceEvent(cfg, reference, e).store, key) ==
            LogOf(reference.store, key) + (if SaysYes(cfg, limited, e, key) then [e.now] else [])
  {
    hide KeyInv, Sound, Young;
    var limited', reference' := LimiterEvent(cfg, limited, e), ReferenceEvent(cfg, reference, e);
    if e.Request? && e.key == key {
      RequestAgrees(cfg, limited.store, reference.store, clock, key, e.now);
    } else {
      OtherStepKeeps(cfg, limited.store, reference.store, clock, limited'.store, reference'.store, e.now, key);
    }
  }

  lemma AcceptedGrows(cfg: Config, before: Run, events: seq<Event>, e: Event, key: string)
    requires NonEmptyQueues(before.store)
    ensures Accepted(events + [e], LimiterEvent(cfg, before, e).verdicts, key) ==
            Accepted(events, before.verdicts, key) + (if SaysYes(cfg, before, e, key) then [e.now] else [])
  {
    hide RequestStep, SweepStep;
    assert (events + [e])[..|events|] == events;
    var after := LimiterEvent(cfg, before, e).verdicts;
    if e.Request? {
      assert after[..|after| - 1] == before.verdicts;
    }
  }

  lemma NothingInStep(cfg: Config, start: int, key: string)
    ensures KeyInv(cfg, map[], map[], start, key)
  {
  }

  /** No window of length `duration` ever holds more than `max` requests that the limiter accepted. */
  lemma NoWindowExceedsMax(cfg: Config, events: seq<Event>, key: string, start: int)
    requires Schedule(cfg, events) && Sound(cfg, key)
    ensures var limit := cfg.limits(key);
            Count(Accepted(events, Limiter(cfg, events).verdicts, key),
                  InWindow(start, limit.duration)) <= limit.max
  {
    KeyInStep(cfg, events, key, if events == [] then 0 else events[0].now);
    ReferenceSpaced(cfg, events, key, if events == [] then 0 else events[|events| - 1].now);
    SpacedWindow(LogOf(Reference(cfg, events).store, key), cfg.limits(key), start);
  }
}
