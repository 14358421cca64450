/** Model-alias chains and the run flag of controller/channel-test.go. */
module Alias {
  import opened Options
  import opened Seqs

  type Mapping = map<string, string>

  /** The alias that `x` stands for; a blank or self-referring entry ends the chain. */
  function Next(mapping: Mapping, x: string): Option<string> {
    if x in mapping && mapping[x] != "" && mapping[x] != x then Some(mapping[x]) else None
  }

  lemma NextExactly(mapping: Mapping, x: string, y: string)
    ensures Next(mapping, x) == Some(y) <==> x in mapping && mapping[x] == y && y != "" && y != x
  {
  }

  /** Each name of the path stands for the one after it. */
  predicate Path(mapping: Mapping, path: seq<string>) {
    path != [] && forall i :: 0 <= i < |path| - 1 ==> Next(mapping, path[i]) == Some(path[i + 1])
  }

  /** How the chain loop stops: at a name that stands for nothing, or for a name already passed. */
  ghost predicate Resolves(mapping: Mapping, origin: string, path: seq<string>) {
    && Path(mapping, path) && NoRepeats(path) && path[0] == origin
    && (Next(mapping, path[|path| - 1]).None? || Next(mapping, path[|path| - 1]).value in path)
  }

  function Universe(mapping: Mapping, origin: string): set<string> {
    {origin} + set x | x in mapping :: mapping[x]
  }

  /** The chain loop of testChannelASR. It ends for every mapping, cyclic or not. */
  method ResolveAlias(mapping: Mapping, origin: string) returns (upstream: string)
    ensures exists path: seq<string> :: Resolves(mapping, origin, path) && upstream == path[|path| - 1]
  {
    var current := origin;
    var visited := {origin};
    ghost var path := [origin];
    while true
      invariant Path(mapping, path) && NoRepeats(path) && path[0] == origin && current == path[|path| - 1]
      invariant forall x :: x in visited <==> x in path
      invariant visited <= Universe(mapping, origin)
      decreases Universe(mapping, origin) - visited
    {
      if current !in mapping || mapping[current] == "" || mapping[current] == current {
        break;
      }
      var next := mapping[current];
      if next in visited {
        break;
      }
      assert next in Universe(mapping, origin);
      visited := visited + {next};
      current := next;
      path := path + [next];
    }
    assert Resolves(mapping, origin, path);
    upstream := current;
  }

  /** The name `n` links along the chain from `x`, if the chain is that long. */
  function Follow(mapping: Mapping, x: string, n: nat): Option<string> {
    if n == 0 then Some(x) else
      var y := Follow(mapping, x, n - 1);
      if y.None? then None else Next(mapping, y.value)
  }

  /** `s` ends the chain from `origin`. */
  ghost predicate Sink(mapping: Mapping, origin: string, s: string) {
    Next(mapping, s).None? && exists n: nat :: Follow(mapping, origin, n) == Some(s)
  }

  lemma {:induction false} PathIsChain(mapping: Mapping, path: seq<string>, i: nat)
    requires Path(mapping, path) && i < |path|
    ensures Follow(mapping, path[0], i) == Some(path[i])
  {
    if i > 0 {
      PathIsChain(mapping, path, i - 1);
    }
  }

  /** On a path that runs back into itself the chain never leaves the path. */
  lemma {:induction false} LoopStays(mapping: Mapping, path: seq<string>, n: nat)
    requires Path(mapping, path) && Next(mapping, path[|path| - 1]).Some?
             && Next(mapping, path[|path| - 1]).value in path
    ensures Follow(mapping, path[0], n).Some? && Follow(mapping, path[0], n).value in path
    ensures Next(mapping, Follow(mapping, path[0], n).value).Some?
  {
    if n > 0 {
      LoopStays(mapping, path, n - 1);
      var i :| 0 <= i < |path| && path[i] == Follow(mapping, path[0], n - 1).value;
      assert i < |path| - 1 ==> Next(mapping, path[i]) == Some(path[i + 1]);
    }
    var j :| 0 <= j < |path| && path[j] == Follow(mapping, path[0], n).value;
    assert j < |path| - 1 ==> Next(mapping, path[j]) == Some(path[j + 1]);
  }

  lemma {:induction false} ChainFollowsPath(mapping: Mapping, path: seq<string>, n: nat)
    requires Path(mapping, path) && Next(mapping, path[|path| - 1]).None?
    ensures n < |path| ==> Follow(mapping, path[0], n) == Some(path[n])
    ensures n >= |path| ==> Follow(mapping, path[0], n) == None
    ensures n < |path| - 1 ==> Next(mapping, path[n]).Some?
  {
    assert n < |path| - 1 ==> Next(mapping, path[n]) == Some(path[n + 1]);
    if n > 0 {
      ChainFollowsPath(mapping, path, n - 1);
    }
  }

  /** A resolved name is reachable from the origin. It is the end of the chain, and the only one, exactly
      when the chain has an end; otherwise the name after it was already passed. */
  lemma ResolutionIsTheSink(mapping: Mapping, origin: string, path: seq<string>)
    requires Resolves(mapping, origin, path)
    ensures var upstream := path[|path| - 1];
            && (exists n: nat :: Follow(mapping, origin, n) == Some(upstream))
            && (Sink(mapping, origin, upstream) <==> exists s :: Sink(mapping, origin, s))
            && (forall s :: Sink(mapping, origin, s) ==> s == upstream)
            && (!Sink(mapping, origin, upstream) ==>
              Next(mapping, upstream).Some? && Next(mapping, upstream).value in path)
  {
    var upstream := path[|path| - 1];
    PathIsChain(mapping, path, |path| - 1);
    forall s | Sink(mapping, origin, s) ensures s == upstream && Next(mapping, upstream).None? {
      var n: nat :| Follow(mapping, origin, n) == Some(s);
      if Next(mapping, upstream).None? {
        ChainFollowsPath(mapping, path, n);
      } else {
        LoopStays(mapping, path, n);
      }
    }
  }

  // ---------- The run flag ----------

  /** Where a call of testAllChannels is: the flag is held from Loading to the end of Testing. */
  datatype Phase = Idle | Loading | Testing

  datatype Runner = Runner(running: bool, calls: map<nat, Phase>)

  datatype Event =
    | Start(call: nat, filtered: bool)
    | LoadFailed(call: nat)
    | Loaded(call: nat)
    | Finished(call: nat)

  function PhaseOf(r: Runner, call: nat): Phase {
    if call in r.calls then r.calls[call] else Idle
  }

  /** One step under the lock; a step that the call is not ready for changes nothing. */
  function RunnerStep(r: Runner, e: Event): Runner {
    match e
    case Start(c, filtered) =>
      if PhaseOf(r, c) == Idle && !r.running && filtered then Runner(true, r.calls[c := Loading]) else r
    case LoadFailed(c) => if PhaseOf(r, c) == Loading then Runner(false, r.calls[c := Idle]) else r
    case Loaded(c) => if PhaseOf(r, c) == Loading then r.(calls := r.calls[c := Testing]) else r
    case Finished(c) => if PhaseOf(r, c) == Testing then Runner(false, r.calls[c := Idle]) else r
  }

  function RunnerAfter(events: seq<Event>): Runner {
    if events == [] then Runner(false, map[])
    else RunnerStep(RunnerAfter(events[..|events| - 1]), events[|events| - 1])
  }

  /** A call that finds the flag clear and some tags to test takes the flag; any other call leaves things as they are.
      The flag is held through loading and testing, and given back at the end of either. */
  lemma RunMoves(r: Runner, c: nat, filtered: bool)
    ensures PhaseOf(r, c) == Idle ==>
              RunnerStep(r, Start(c, filtered)) ==
              if !r.running && filtered then Runner(true, r.calls[c := Loading]) else r
    ensures PhaseOf(r, c) == Loading ==>
              && RunnerStep(r, Loaded(c)) == Runner(r.running, r.calls[c := Testing])
              && RunnerStep(r, LoadFailed(c)) == Runner(false, r.calls[c := Idle])
    ensures PhaseOf(r, c) == Testing ==> RunnerStep(r, Finished(c)) == Runner(false, r.calls[c := Idle])
  {
  }

  /** In every interleaving at most one call tests channels, and the flag is set exactly while one does. */
  lemma {:induction false} OneTestAtATime(events: seq<Event>)
    ensures var r := RunnerAfter(events);
            && (forall a, b :: PhaseOf(r, a) != Idle && PhaseOf(r, b) != Idle ==> a == b)
            && (r.running <==> exists a :: PhaseOf(r, a) != Idle)
  {
    if events != [] {
      OneTestAtATime(events[..|events| - 1]);
      var before, after, e := RunnerAfter(events[..|events| - 1]), RunnerAfter(events), events[|events| - 1];
      assert forall a :: a != e.call ==> PhaseOf(after, a) == PhaseOf(before, a);
      if after.running && PhaseOf(after, e.call) == Idle {
        var a :| PhaseOf(before, a) != Idle;
        assert PhaseOf(after, a) != Idle;
      }
    }
  }
}
