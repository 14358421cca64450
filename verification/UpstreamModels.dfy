/** Keeping a channel's model list in step with its upstream: the detect, ignore, apply and auto-sync
    operations of controller/channel_upstream_update.go on one stored channel row. */
module UpstreamModels {
  import opened Options
  import opened Text
  import opened ModelNames

  /** Whether a regular expression matches a name; false for a pattern that does not compile. */
  type Matcher = (string, string) -> bool

  const REGEX_PREFIX := "regex:"

  /** The columns of a channel row that these operations read or write. */
  datatype Row = Row(
    models: string,
    mapping: map<string, string>,
    autoSync: bool,
    ignored: seq<string>,
    detected: seq<string>,
    removed: seq<string>,
    lastCheck: int)

  function LocalModels(row: Row): seq<string> {
    Normalize(Entries(row.models, ','))
  }

  // ---------- Detection ----------

  predicate Blocks(matches: Matcher, ignored: string, name: string) {
    if REGEX_PREFIX <= ignored then matches(TrimSpace(ignored[|REGEX_PREFIX|..]), name) else ignored == name
  }

  predicate Withheld(matches: Matcher, ignored: set<string>, name: string) {
    exists i <- ignored :: Blocks(matches, i, name)
  }

  /** Upstream names that are neither local, nor the target of a mapping, nor ignored. */
  function Missing(
    matches: Matcher, local: seq<string>, ignored: set<string>, mapping: map<string, string>): string -> bool
  {
    name => name !in local && name !in mapping.Values && !Withheld(matches, ignored, name)
  }

  /** Local names that upstream no longer has; the sources of a mapping are kept. */
  function Stale(upstream: seq<string>, mapping: map<string, string>): string -> bool {
    name => name !in mapping.Keys && name !in upstream
  }

  /** collectPendingUpstreamModelChangesFromModels */
  function PendingAdd(matches: Matcher, local: seq<string>, upstream: seq<string>, ignored: seq<string>,
                      mapping: map<string, string>): seq<string> {
    Filter(Normalize(upstream), Missing(matches, Normalize(local), Names(ignored), mapping))
  }

  function PendingRemove(local: seq<string>, upstream: seq<string>, mapping: map<string, string>): seq<string> {
    Filter(Normalize(local), Stale(Normalize(upstream), mapping))
  }

  /** checkAndPersistChannelUpstreamModelUpdates once the upstream list is there: `upstream` is None when
      fetching it failed. */
  function DetectStep(matches: Matcher, row: Row, upstream: Option<seq<string>>, allowAuto: bool, now: int): Row {
    if upstream.None? then row.(lastCheck := now) else
      var local := Entries(row.models, ',');
      var add := PendingAdd(matches, local, upstream.value, row.ignored, row.mapping);
      var remove := PendingRemove(local, upstream.value, row.mapping);
      if allowAuto && row.autoSync && add != []
      then row.(models := Join(Merge(Normalize(local), add), ','), detected := [], removed := remove, lastCheck := now)
      else row.(detected := add, removed := remove, lastCheck := now)
  }

  // ---------- Applying a selection ----------

  datatype Applied = Applied(
    added: seq<string>, removed: seq<string>, remaining: seq<string>, remainingRemove: seq<string>, changed: bool)

  function SelectAdd(row: Row, add: seq<string>): seq<string> {
    Intersect(add, Normalize(row.detected))
  }

  function SelectIgnore(row: Row, ignore: seq<string>): seq<string> {
    Intersect(ignore, Normalize(row.detected))
  }

  function SelectRemove(row: Row, add: seq<string>, remove: seq<string>): seq<string> {
    Subtract(Intersect(remove, Normalize(row.removed)), SelectAdd(row, add))
  }

  /** applyChannelUpstreamModelUpdates */
  function ApplyStep(row: Row, add: seq<string>, ignore: seq<string>, remove: seq<string>, now: int): (Row, Applied) {
    var added, ignoring, removing := SelectAdd(row, add), SelectIgnore(row, ignore), SelectRemove(row, add, remove);
    var origin := LocalModels(row);
    var next := ApplySelected(origin, added, removing);
    var merged := Merge(row.ignored, ignoring);
    var remaining := Subtract(Normalize(row.detected), added + ignoring);
    var remainingRemove := Subtract(Normalize(row.removed), removing);
    (Row(if origin != next then Join(next, ',') else row.models, row.mapping, row.autoSync,
         if added != [] then Subtract(merged, added) else merged, remaining, remainingRemove, now),
     Applied(added, removing, remaining, remainingRemove, origin != next))
  }

  class Channel {
    var models: string
    var mapping: map<string, string>
    var autoSync: bool
    var ignored: seq<string>
    var detected: seq<string>
    var removed: seq<string>
    var lastCheck: int

    function View(): Row
      reads this
    {
      Row(models, mapping, autoSync, ignored, detected, removed, lastCheck)
    }

    /** `unchecked` is the early return for a channel that was looked at a moment ago. */
    method CheckAndPersist(matches: Matcher, upstream: Option<seq<string>>, force: bool, allowAuto: bool,
                           now: int, minInterval: int)
      returns (unchecked: bool, modelsChanged: bool, autoAdded: int)
      modifies this
      ensures unchecked == (!force && old(lastCheck) > 0 && now - old(lastCheck) < minInterval)
      ensures View() == if unchecked then old(View()) else DetectStep(matches, old(View()), upstream, allowAuto, now)
      ensures var add := if upstream.None? then []
                         else PendingAdd(matches, Entries(old(models), ','), upstream.value, old(ignored), mapping);
              && modelsChanged == (!unchecked && allowAuto && autoSync && add != [])
              && autoAdded == if modelsChanged then |add| else 0
    {
      hide Entries, Join, Normalize;
      if !force && lastCheck > 0 && now - lastCheck < minInterval {
        return true, false, 0;
      }
      lastCheck := now;
      if upstream.None? {
        return false, false, 0;
      }
      var local := Entries(models, ',');
      var pendingAdd := PendingAdd(matches, local, upstream.value, ignored, mapping);
      var pendingRemove := PendingRemove(local, upstream.value, mapping);
      modelsChanged, autoAdded := false, 0;
      if allowAuto && autoSync && |pendingAdd| > 0 {
        var origin := Normalize(local);
        var merged := MergeModelNames(origin, pendingAdd);
        MergeAppends(matches, local, upstream.value, ignored, mapping);
        if |merged| > |origin| {
          models := Join(merged, ',');
          autoAdded := |merged| - |origin|;
          modelsChanged := true;
        }
        detected := [];
      } else {
        detected := pendingAdd;
      }
      removed := pendingRemove;
      unchecked := false;
    }

    method ApplyUpdates(add: seq<string>, ignore: seq<string>, remove: seq<string>, now: int) returns (result: Applied)
      modifies this
      ensures (View(), result) == ApplyStep(old(View()), add, ignore, remove, now)
    {
      hide Entries, Join, Normalize, ApplySelected, Merge, Subtract, Intersect;
      var pendingAdd, pendingRemove := Normalize(detected), Normalize(removed);
      var addModels := Intersect(add, pendingAdd);
      var ignoreModels := Intersect(ignore, pendingAdd);
      var removeModels := Intersect(remove, pendingRemove);
      removeModels := Subtract(removeModels, addModels);
      var origin := Normalize(Entries(models, ','));
      var next := ApplySelected(origin, addModels, removeModels);
      var changed := origin != next;
      if changed {
        models := Join(next, ',');
      }
      ignored := MergeModelNames(ignored, ignoreModels);
      if |addModels| > 0 {
        ignored := Subtract(ignored, addModels);
      }
      var remaining := Subtract(pendingAdd, addModels + ignoreModels);
      var remainingRemove := Subtract(pendingRemove, removeModels);
      detected := remaining;
      removed := remainingRemove;
      lastCheck := now;
      result := Applied(addModels, removeModels, remaining, remainingRemove, changed);
    }
  }

  /** When fetching fails, only the time of the check is written. */
  lemma FailedFetchKeeps(matches: Matcher, row: Row, allowAuto: bool, now: int)
    ensures var next := DetectStep(matches, row, None, allowAuto, now);
            && next.models == row.models && next.mapping == row.mapping && next.autoSync == row.autoSync
            && next.ignored == row.ignored && next.detected == row.detected && next.removed == row.removed
            && next.lastCheck == now
  {
  }

  /** A pending name is never local, so the auto-sync merge appends the whole pending list. */
  lemma MergeAppends(matches: Matcher, local: seq<string>, upstream: seq<string>, ignored: seq<string>,
      mapping: map<string, string>)
    ensures var add := PendingAdd(matches, local, upstream, ignored, mapping);
            Merge(Normalize(local), add) == Normalize(local) + add
  {
    hide Normalize, Names, Name, Filter;
    var add := PendingAdd(matches, local, upstream, ignored, mapping);
    var l := Normalize(local);
    Normal(local);
    Normal(upstream);
    NamesFixed(l);
    NormalizeFixed(l);
    NormalizeFixed(add);
    FilterAll(add, NotIn(Names(l)));
  }

  // ---------- A partial selection loses nothing that was pending ----------

  /** What is added, ignored and removed is what was selected of the pending names, and adding wins over removing. What
      was not selected stays pending, in the stored row and in the report, and the stored ignore list takes the ignored
      names and loses the added ones. */
  lemma SelectionSplitsPending(row: Row, add: seq<string>, ignore: seq<string>, remove: seq<string>, now: int)
    ensures var (next, r) := ApplyStep(row, add, ignore, remove, now);
            var pending, ignoring := Names(row.detected), Names(ignore) * Names(row.detected);
            && Elements(r.added) == Names(add) * pending
            && Elements(r.removed) == Names(remove) * Names(row.removed) - Elements(r.added)
            && Elements(next.detected) == pending - Elements(r.added) - ignoring
            && Elements(next.removed) == Names(row.removed) - Elements(r.removed)
            && next.detected == r.remaining && next.removed == r.remainingRemove
            && Elements(next.ignored) == Names(row.ignored) + ignoring - Elements(r.added)
            && next.mapping == row.mapping && next.autoSync == row.autoSync && next.lastCheck == now
            && Normalized(r.added) && Normalized(r.removed) && Normalized(r.remaining) && Normalized(r.remainingRemove)
  {
    hide Normalize, Names, Name, Filter, Entries, Join, ApplySelected, Merge, Subtract, Intersect;
    var added, ignoring, removing := SelectAdd(row, add), SelectIgnore(row, ignore), SelectRemove(row, add, remove);
    NamesFixed(added);
    NamesFixed(ignoring);
    NamesFixed(removing);
    NamesOfNormalized(row.detected);
    NamesOfNormalized(row.removed);
    NamesFixed(Intersect(remove, Normalize(row.removed)));
    NamesOfBoth(added, ignoring);
    NamesFixed(Merge(row.ignored, ignoring));
  }

  /** The stored models after a selection, and whether they changed. */
  lemma SelectionAppliesToModels(row: Row, add: seq<string>, ignore: seq<string>, remove: seq<string>, now: int)
    ensures var (next, r) := ApplyStep(row, add, ignore, remove, now);
            var local := Elements(LocalModels(row));
            && (NoComma(r.added) ==> Elements(LocalModels(next)) == local - Elements(r.removed) + Elements(r.added))
            && (r.changed <==> local - Elements(r.removed) + Elements(r.added) != local)
            && (!r.changed ==> next.models == row.models)
  {
    hide Normalize, Names, Name, Filter, Entries, Join, ApplySelected, Merge, Subtract, Intersect, SelectAdd,
         SelectRemove;
    var added, removing := SelectAdd(row, add), SelectRemove(row, add, remove);
    var origin := LocalModels(row);
    SelectionSplitsPending(row, add, ignore, remove, now);
    Normal(Entries(row.models, ','));
    ApplySelectedShape(origin, added, removing);
    ChangedMeansDifferentSet(origin, added, removing);
    LocalNoComma(row.models);
    var next := ApplySelected(origin, added, removing);
    if NoComma(added) {
      assert NoComma(next) by {
        forall x <- next ensures Free(x, ',') {
          assert x in Elements(next);
        }
      }
      StoredModels(next);
    }
  }

  lemma NamesFixed(s: seq<string>)
    requires Normalized(s)
    ensures Names(s) == Elements(s)
  {
    NormalizeFixed(s);
    Normal(s);
  }

  lemma NamesOfNormalized(s: seq<string>)
    ensures Names(Normalize(s)) == Names(s)
  {
    Normal(s);
    NamesFixed(Normalize(s));
  }

  lemma NamesOfBoth(a: seq<string>, b: seq<string>)
    ensures Names(a + b) == Names(a) + Names(b)
  {
    hide TrimSpace;
    assert forall x :: x in a + b <==> x in a || x in b;
  }

  // ---------- Convergence ----------

  predicate NoComma(names: seq<string>) {
    AllFree(names, ',')
  }

  /** An ignore entry with the pattern prefix holds back what its trimmed pattern matches, any other only its own
      name. */
  lemma BlocksExactly(matches: Matcher, ignored: string, name: string)
    ensures Blocks(matches, ignored, name) <==>
            || (exists pattern :: ignored == "regex:" + pattern && matches(TrimSpace(pattern), name))
            || (ignored == name && forall pattern :: ignored != "regex:" + pattern)
  {
    hide TrimSpace;
    if "regex:" <= ignored {
      assert ignored == "regex:" + ignored[6..];
      assert forall pattern :: ignored == "regex:" + pattern ==> pattern == ignored[6..];
    } else {
      assert forall pattern: string :: "regex:" <= "regex:" + pattern;
    }
  }

  /** What has to be true before applying: no pending name holds a comma, and no upstream name that the
      ignore list holds back now stops being held back when the pending names leave that list. */
  ghost predicate Settles(matches: Matcher, row: Row, upstream: seq<string>) {
    var add := PendingAdd(matches, Entries(row.models, ','), upstream, row.ignored, row.mapping);
    && NoComma(add)
    && forall u <- Names(upstream) ::
         u !in LocalModels(row) && u !in row.mapping.Values && Withheld(matches, Names(row.ignored), u)
         ==> Withheld(matches, Names(row.ignored) - Elements(add), u)
  }

  /** Detecting, then applying everything that was detected. */
  function DetectAndApply(matches: Matcher, row: Row, upstream: seq<string>, allowAuto: bool, now: int): Row {
    var found := DetectStep(matches, row, Some(upstream), allowAuto, now);
    ApplyStep(found, found.detected, [], found.removed, now).0
  }

  function NothingPending(row: Row): bool {
    row.detected == [] && row.removed == []
  }

  /** A stored list reads back as itself unless one of its names holds a comma. */
  lemma StoredModels(names: seq<string>)
    requires Normalized(names) && NoComma(names)
    ensures Normalize(Entries(Join(names, ','), ',')) == names
  {
    hide Normalize, Entries, Join;
    EntriesRoundTrip(names, ',');
    assert SolidEdges(names) by {
      if names != [] {
        assert names[0] in names && names[|names| - 1] in names;
      }
    }
    NormalizeFixed(names);
  }

  lemma LocalNoComma(text: string)
    ensures NoComma(Normalize(Entries(text, ',')))
  {
    hide Entries, Normalize, TrimSpace;
    var parts := Entries(text, ',');
    forall x <- Normalize(parts) ensures Free(x, ',') {
      Normal(parts);
      assert x in Names(parts);
    }
  }

  /** The list that applying everything leaves, and the list it came from. */
  lemma AppliedModels(matches: Matcher, row: Row, upstream: seq<string>, now: int)
    ensures var add := PendingAdd(matches, Entries(row.models, ','), upstream, row.ignored, row.mapping);
            var remove := PendingRemove(Entries(row.models, ','), upstream, row.mapping);
            var next := DetectAndApply(matches, row, upstream, false, now);
            && Normalized(add) && Normalized(remove)
            && Elements(add) <= Names(upstream) - Elements(LocalModels(row))
            && Elements(remove) <= Elements(LocalModels(row)) - Names(upstream)
            && Names(next.ignored) == Names(row.ignored) - Elements(add)
            && next.mapping == row.mapping
            && (NoComma(add) ==>
                  Elements(LocalModels(next)) == (Elements(LocalModels(row)) - Elements(remove)) + Elements(add))
            && NoComma(LocalModels(next))
  {
    hide Entries, Join, Normalize, Names, Name, Filter, Withheld, ApplySelected;
    var local := Entries(row.models, ',');
    var add := PendingAdd(matches, local, upstream, row.ignored, row.mapping);
    var remove := PendingRemove(local, upstream, row.mapping);
    var found := DetectStep(matches, row, Some(upstream), false, now);
    var origin := LocalModels(row);
    Normal(local);
    Normal(upstream);
    EverythingSelected(found, add, remove);
    ApplySelectedShape(origin, add, remove);
    var next := ApplySelected(origin, add, remove);
    LocalNoComma(row.models);
    if NoComma(add) {
      assert NoComma(next) by {
        forall x <- next ensures Free(x, ',') {
          assert x in Elements(next);
        }
      }
      StoredModels(next);
    }
    LocalNoComma(DetectAndApply(matches, row, upstream, false, now).models);
    NamesFixed([]);
    NamesFixed(Merge(row.ignored, []));
    NamesFixed(add);
    NamesFixed(Subtract(Merge(row.ignored, []), add));
  }

  /** Selecting everything that is pending selects exactly the pending lists. */
  lemma EverythingSelected(found: Row, add: seq<string>, remove: seq<string>)
    requires found.detected == add && found.removed == remove && Normalized(add) && Normalized(remove)
    requires Elements(add) !! Elements(remove)
    ensures SelectAdd(found, add) == add && SelectIgnore(found, []) == [] && SelectRemove(found, add, remove) == remove
  {
    hide Normalize, Names, Name;
    NormalizeFixed([]);
    NormalizeFixed(add);
    NormalizeFixed(remove);
    NamesFixed(add);
    NamesFixed(remove);
    FilterAll(add, In(Names(add)));
    FilterAll(remove, In(Names(remove)));
    FilterAll(remove, NotIn(Names(add)));
  }

  /** Whether a row has nothing left to reconcile with an upstream list, in terms of sets of names. */
  lemma NothingToDo(matches: Matcher, row: Row, upstream: seq<string>, now: int)
    ensures NothingPending(DetectStep(matches, row, Some(upstream), false, now))
       <==> && (forall u <- Names(upstream) ::
                  u in LocalModels(row) || u in row.mapping.Values || Withheld(matches, Names(row.ignored), u))
            && (forall l <- LocalModels(row) :: l in row.mapping.Keys || l in Names(upstream))
  {
    hide Entries, Normalize, Names, Withheld;
    var local := Entries(row.models, ',');
    var add := PendingAdd(matches, local, upstream, row.ignored, row.mapping);
    var remove := PendingRemove(local, upstream, row.mapping);
    Normal(upstream);
    Normal(local);
    assert add != [] ==> add[0] in add;
    assert remove != [] ==> remove[0] in remove;
    assert forall u :: u in Names(upstream) <==> u in Normalize(upstream);
  }

  /** Detecting again after applying everything finds nothing, exactly when `Settles` held before. */
  lemma ReconciliationConverges(matches: Matcher, row: Row, upstream: seq<string>, now: int)
    ensures NothingPending(DetectStep(matches, DetectAndApply(matches, row, upstream, false, now), Some(upstream),
            false, now))
       <==> Settles(matches, row, upstream)
  {
    hide Entries, Join, Normalize, Names, Name, Withheld, DetectAndApply, DetectStep;
    var add := PendingAdd(matches, Entries(row.models, ','), upstream, row.ignored, row.mapping);
    var remove := PendingRemove(Entries(row.models, ','), upstream, row.mapping);
    var next := DetectAndApply(matches, row, upstream, false, now);
    AppliedModels(matches, row, upstream, now);
    NothingToDo(matches, next, upstream, now);
    PendingSets(matches, row, upstream);
    FewerIgnored(matches, row, add);
    if !NoComma(add) {
      var c :| c in add && !Free(c, ',');
      assert c in Names(upstream) && c !in LocalModels(next) && c !in next.mapping.Values;
    } else {
      assert forall u :: u in LocalModels(next) <==> u in Elements(LocalModels(next));
      assert forall u :: u in LocalModels(row) <==> u in Elements(LocalModels(row));
    }
  }

  lemma PendingSets(matches: Matcher, row: Row, upstream: seq<string>)
    ensures var add := PendingAdd(matches, Entries(row.models, ','), upstream, row.ignored, row.mapping);
            var remove := PendingRemove(Entries(row.models, ','), upstream, row.mapping);
            && (forall u :: u in add <==> u in Names(upstream) && u !in LocalModels(row) && u !in row.mapping.Values
                                          && !Withheld(matches, Names(row.ignored), u))
            && (forall l :: l in remove <==> l in LocalModels(row) && l !in row.mapping.Keys && l !in Names(upstream))
  {
    hide Entries, Normalize, Names, Withheld;
    Normal(upstream);
    Normal(Entries(row.models, ','));
    assert forall u :: u in Names(upstream) <==> u in Normalize(upstream);
  }

  lemma FewerIgnored(matches: Matcher, row: Row, add: seq<string>)
    ensures forall u :: Withheld(matches, Names(row.ignored) - Elements(add), u) ==>
            Withheld(matches, Names(row.ignored), u)
  {
  }

  /** Enough for convergence: upstream names hold no comma and do not look like ignore patterns. */
  lemma PlainUpstreamSettles(matches: Matcher, row: Row, upstream: seq<string>)
    requires forall u <- Names(upstream) :: Free(u, ',') && !(REGEX_PREFIX <= u)
    ensures Settles(matches, row, upstream)
  {
    hide Entries, Normalize, Names;
    var add := PendingAdd(matches, Entries(row.models, ','), upstream, row.ignored, row.mapping);
    PendingSets(matches, row, upstream);
    forall u <- Names(upstream) | Withheld(matches, Names(row.ignored), u)
      ensures Withheld(matches, Names(row.ignored) - Elements(add), u)
    {
      var i :| i in Names(row.ignored) && Blocks(matches, i, u);
      assert i !in Elements(add);
    }
  }

  lemma OneName(name: string)
    requires Trimmed(name) && name != ""
    ensures Names([name]) == {name} && Names([]) == {}
  {
    hide TrimSpace, Trimmed;
    assert name in [name] && TrimSpace(name) == name;
  }

  /** A row without models, and these ignore entries. */
  function EmptyRow(ignored: seq<string>): Row {
    Row("", map[], false, ignored, [], [], 0)
  }

  lemma EmptyHasNone(ignored: seq<string>)
    ensures LocalModels(EmptyRow(ignored)) == []
  {
  }

  /** A name with a comma is never settled: stored, it reads back as two other names, and is missing again. */
  lemma CommaNeverSettles(matches: Matcher, now: int)
    ensures !Settles(matches, EmptyRow([]), ["a,b"])
    ensures !NothingPending(
              DetectStep(
                matches, DetectAndApply(matches, EmptyRow([]), ["a,b"], false, now), Some(["a,b"]), false, now))
  {
    hide Entries, Normalize, Names, DetectStep, DetectAndApply, PendingAdd;
    EmptyHasNone([]);
    OneName("a,b");
    PendingSets(matches, EmptyRow([]), ["a,b"]);
    assert "a,b"[1] == ',';
    ReconciliationConverges(matches, EmptyRow([]), ["a,b"], now);
  }

  /** An upstream name that reads as an ignore pattern: adding it takes the pattern off the ignore list, and the name
      that the pattern held back is missing from then on. */
  lemma AddedPatternLetsThrough(matches: Matcher, now: int)
    requires matches("^b$", "b") && !matches("^b$", "regex:^b$")
    ensures var row, upstream := EmptyRow(["regex:^b$"]), ["regex:^b$", "b"];
            && !Settles(matches, row, upstream)
            && !NothingPending(DetectStep(matches, DetectAndApply(matches, row, upstream, false, now), Some(upstream),
              false, now))
  {
    hide Entries, Normalize, Names, DetectStep, DetectAndApply, PendingAdd, TrimSpace, Withheld;
    var row, upstream := EmptyRow(["regex:^b$"]), ["regex:^b$", "b"];
    EmptyHasNone(["regex:^b$"]);
    OneName("regex:^b$");
    OneName("b");
    NamesOfBoth(["regex:^b$"], ["b"]);
    assert ["regex:^b$"] + ["b"] == upstream;
    PatternBlocks(matches);
    PendingSets(matches, row, upstream);
    var add := PendingAdd(matches, Entries(row.models, ','), upstream, row.ignored, row.mapping);
    assert "regex:^b$" in add;
    assert Names(row.ignored) - Elements(add) == {};
    ReconciliationConverges(matches, row, upstream, now);
  }

  lemma PatternBlocks(matches: Matcher)
    requires matches("^b$", "b") && !matches("^b$", "regex:^b$")
    ensures Withheld(matches, {"regex:^b$"}, "b") && !Withheld(matches, {"regex:^b$"}, "regex:^b$")
    ensures !Withheld(matches, {}, "b")
  {
    hide TrimSpace;
    assert "regex:^b$"[|REGEX_PREFIX|..] == "^b$" && TrimSpace("^b$") == "^b$";
    assert REGEX_PREFIX <= "regex:^b$";
    assert Blocks(matches, "regex:^b$", "b");
  }

  /** The rows before and after applying with automatic sync: the pending names are merged at once and
      the ignore list loses nothing. */
  lemma AutoAppliedModels(matches: Matcher, row: Row, upstream: seq<string>, now: int)
    requires row.autoSync && PendingAdd(matches, Entries(row.models, ','), upstream, row.ignored, row.mapping) != []
    ensures var add := PendingAdd(matches, Entries(row.models, ','), upstream, row.ignored, row.mapping);
            var remove := PendingRemove(Entries(row.models, ','), upstream, row.mapping);
            var next := DetectAndApply(matches, row, upstream, true, now);
            && Names(next.ignored) == Names(row.ignored) && next.mapping == row.mapping
            && (NoComma(add) ==>
                  Elements(LocalModels(next)) == (Elements(LocalModels(row)) + Elements(add)) - Elements(remove))
            && NoComma(LocalModels(next))
  {
    hide Entries, Join, Normalize, Names, Name, Filter, Withheld, ApplySelected;
    var local := Entries(row.models, ',');
    var add := PendingAdd(matches, local, upstream, row.ignored, row.mapping);
    var remove := PendingRemove(local, upstream, row.mapping);
    var found := DetectStep(matches, row, Some(upstream), true, now);
    var merged := LocalModels(row) + add;
    Normal(local);
    Normal(upstream);
    MergeAppends(matches, local, upstream, row.ignored, row.mapping);
    LocalNoComma(row.models);
    EverythingSelected(found, [], remove);
    if NoComma(add) {
      StoredModels(merged);
      ApplySelectedShape(merged, [], remove);
      var next := ApplySelected(merged, [], remove);
      assert NoComma(next) by {
        forall x <- next ensures Free(x, ',') {
          assert x in Elements(next);
        }
      }
      StoredModels(next);
      assert forall x :: x in Elements(merged) <==> x in LocalModels(row) || x in add;
    }
    LocalNoComma(DetectAndApply(matches, row, upstream, true, now).models);
    NamesFixed([]);
    NamesFixed(Merge(row.ignored, []));
  }

  /** With automatic sync, detecting again finds nothing exactly when no pending name holds a comma. */
  lemma AutoSyncConverges(matches: Matcher, row: Row, upstream: seq<string>, now: int)
    requires row.autoSync
    ensures NothingPending(DetectStep(matches, DetectAndApply(matches, row, upstream, true, now), Some(upstream), false,
            now))
       <==> NoComma(PendingAdd(matches, Entries(row.models, ','), upstream, row.ignored, row.mapping))
  {
    hide Entries, Join, Normalize, Names, Name, Withheld;
    var add := PendingAdd(matches, Entries(row.models, ','), upstream, row.ignored, row.mapping);
    var remove := PendingRemove(Entries(row.models, ','), upstream, row.mapping);
    var next := DetectAndApply(matches, row, upstream, true, now);
    if add == [] {
      ReconciliationConverges(matches, row, upstream, now);
      assert Names(row.ignored) - Elements(add) == Names(row.ignored);
    } else {
      hide DetectAndApply, DetectStep;
      AutoAppliedModels(matches, row, upstream, now);
      NothingToDo(matches, next, upstream, now);
      PendingSets(matches, row, upstream);
      if !NoComma(add) {
        var c :| c in add && !Free(c, ',');
        assert c in Names(upstream) && c !in LocalModels(next) && c !in next.mapping.Values;
      } else {
        assert forall u :: u in LocalModels(next) <==> u in Elements(LocalModels(next));
        assert forall u :: u in LocalModels(row) <==> u in Elements(LocalModels(row));
      }
    }
  }

  // ---------- Notification suppression ----------

  const SUPPRESS_WINDOW := 86400

  datatype Notice = Notice(now: int, changed: int, failed: int)

  /** What was last notified; all zero before the first notification. */
  function InitialNotice(): Notice {
    Notice(0, 0, 0)
  }

  predicate Quiet(n: Notice) {
    n.changed <= 0 && n.failed <= 0
  }

  /** shouldSendUpstreamModelUpdateNotification: the answer and the state it leaves. */
  function NotifyStep(last: Notice, n: Notice): (bool, Notice) {
    if Quiet(n) then (true, last)
    else if last.now > 0 && n.now - last.now < SUPPRESS_WINDOW && last.changed == n.changed && last.failed == n.failed
    then (false, last)
    else (true, n)
  }

  function LastNotified(calls: seq<Notice>): Notice {
    if calls == [] then InitialNotice() else NotifyStep(LastNotified(calls[..|calls| - 1]), calls[|calls| - 1]).1
  }

  function Sent(calls: seq<Notice>, i: nat): bool
    requires i < |calls|
  {
    NotifyStep(LastNotified(calls[..i]), calls[i]).0
  }

  /** A call that is neither quiet nor suppressed. */
  predicate Notified(calls: seq<Notice>, i: nat)
    requires i < |calls|
  {
    Sent(calls, i) && (calls[i].changed > 0 || calls[i].failed > 0)
  }

  class NotifyState {
    var last: Notice

    constructor ()
      ensures last == InitialNotice()
    {
      last := Notice(0, 0, 0);
    }

    method ShouldSend(now: int, changed: int, failed: int) returns (send: bool)
      modifies this
      ensures (send, last) == NotifyStep(old(last), Notice(now, changed, failed))
    {
      if changed <= 0 && failed <= 0 {
        return true;
      }
      if last.now > 0 && now - last.now < SUPPRESS_WINDOW && last.changed == changed && last.failed == failed {
        return false;
      }
      last := Notice(now, changed, failed);
      return true;
    }
  }

  lemma {:induction false} LastIsNotified(calls: seq<Notice>, k: nat) returns (i: int)
    requires k <= |calls|
    ensures if i < 0 then LastNotified(calls[..k]) == InitialNotice() && forall j :: 0 <= j < k ==> !Notified(calls, j)
            else
              && i < k && Notified(calls, i) && LastNotified(calls[..k]) == calls[i]
              && forall j :: i < j < k ==> !Notified(calls, j)
  {
    if k == 0 {
      return -1;
    }
    assert calls[..k][..k - 1] == calls[..k - 1];
    i := LastIsNotified(calls, k - 1);
    if Notified(calls, k - 1) {
      i := k - 1;
    }
  }

  /** A report is suppressed exactly when the last notification before it had the same two counts, at a
      positive time less than the window ago. */
  lemma SuppressedExactlyForRepeats(calls: seq<Notice>, k: nat)
    requires k < |calls|
    ensures !Sent(calls, k) <==>
            && (calls[k].changed > 0 || calls[k].failed > 0)
            && exists i: nat :: i < k && Notified(calls, i) && (forall j :: i < j < k ==> !Notified(calls, j))
                        && calls[i].now > 0 && calls[k].now - calls[i].now < 86400
                        && calls[i].changed == calls[k].changed && calls[i].failed == calls[k].failed
  {
    var i := LastIsNotified(calls, k);
    if !Sent(calls, k) {
      assert i >= 0;
    }
  }
}
