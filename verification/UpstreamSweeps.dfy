/** The sweeps over all channels in controller/channel_upstream_update.go: detecting and applying upstream model changes
    page by page. Their queries leave the mapping column out. */
module UpstreamSweeps {
  import opened Options
  import opened Text
  import opened ModelNames
  import opened UpstreamModels
  import opened KeysetSweep

  /** A stored channel: what the query filters by, and the columns that the operations read or write. */
  datatype Stored = Stored(key: Key, row: Row)

  function KeysOf(rows: seq<Stored>): (keys: seq<Key>)
    ensures |keys| == |rows| && forall i :: 0 <= i < |rows| ==> keys[i] == rows[i].key
  {
    if rows == [] then [] else KeysOf(rows[..|rows| - 1]) + [rows[|rows| - 1].key]
  }

  type Operation = (int, Row) -> Row

  predicate Visits(key: Key) {
    key.enabled && key.checked
  }

  /** What a sweep should leave: the operation done once on every enabled channel that asks for it. */
  function Swept(rows: seq<Stored>, step: Operation): (r: seq<Stored>)
    ensures |r| == |rows|
    ensures forall i :: 0 <= i < |rows| ==>
              var key := rows[i].key;
              r[i] == Stored(key, if Visits(key) then step(key.id, rows[i].row) else rows[i].row)
  {
    if rows == [] then [] else
      var last := rows[|rows| - 1];
      Swept(rows[..|rows| - 1], step)
        + [Stored(last.key, if Visits(last.key) then step(last.key.id, last.row) else last.row)]
  }

  /** The operation done on the visited channels only. */
  ghost predicate PartlySwept(rows: seq<Stored>, step: Operation, visited: seq<Key>, now: seq<Stored>) {
    && |now| == |rows|
    && forall i :: 0 <= i < |rows| ==>
         && now[i].key == rows[i].key
         && now[i].row == if rows[i].key in visited && rows[i].key.checked then step(rows[i].key.id, rows[i].row)
                          else rows[i].row
  }

  class ChannelTable {
    var rows: seq<Stored>

    /** UPDATE ... WHERE id = ? */
    method Write(id: int, row: Row)
      modifies this
      ensures |rows| == |old(rows)|
      ensures forall i :: 0 <= i < |rows| ==>
                rows[i] == if old(rows)[i].key.id == id then old(rows)[i].(row := row) else old(rows)[i]
    {
      var i := 0;
      while i < |rows|
        invariant 0 <= i <= |rows| == |old(rows)|
        invariant forall j :: 0 <= j < |rows| ==>
                    rows[j] == if j < i && old(rows)[j].key.id == id then old(rows)[j].(row := row) else old(rows)[j]
      {
        if rows[i].key.id == id {
          rows := rows[i := rows[i].(row := row)];
        }
        i := i + 1;
      }
    }

    /** One page: each of its channels once, in order, on the values that the query read. */
    method VisitPage(page: seq<Key>, step: Operation, ghost start: seq<Stored>, ghost before: seq<Key>)
      returns (processed: seq<int>)
      requires Table(KeysOf(start)) && PartlySwept(start, step, before, rows)
      requires forall i :: 0 <= i < |page| ==> page[i] in KeysOf(start) && page[i] !in before
      requires forall i, j :: 0 <= i < j < |page| ==> page[i] != page[j]
      modifies this
      ensures PartlySwept(start, step, before + page, rows)
      ensures processed == Checked(page)
    {
      hide Table, KeysOf, Checked;
      var read := rows;
      processed := [];
      NoneChecked();
      assert before + page[..0] == before;
      for n := 0 to |page|
        invariant PartlySwept(start, step, before + page[..n], rows)
        invariant processed == Checked(page[..n])
      {
        CheckedNext(page, n);
        var key := page[n];
        ghost var visited := before + page[..n];
        assert key !in visited && before + page[..n + 1] == visited + [key];
        UncheckedSweeps(start, step, visited, key, rows);
        if key.checked {
          var i :| 0 <= i < |read| && read[i].key == key;
          ghost var earlier := rows;
          Write(key.id, step(key.id, read[i].row));
          WriteSweeps(start, step, visited, key, earlier, rows, i);
          processed := processed + [key.id];
        }
        assert PartlySwept(start, step, visited + [key], rows);
      }
      assert page[..|page|] == page;
    }

    /** The sweep: it ends, visits every enabled channel of the table exactly once and in id order, for any page size,
        and leaves the operation done once on each of them that asks for checks. */
    method Sweep(batch: nat, step: Operation) returns (visited: seq<Key>, processed: seq<int>)
      requires Table(KeysOf(rows)) && batch >= 1
      modifies this
      ensures visited == Enabled(KeysOf(old(rows)))
      ensures processed == Checked(Enabled(KeysOf(old(rows))))
      ensures rows == Swept(old(rows), step)
    {
      hide Table, KeysOf, Checked, PartlySwept, Swept, Enabled, Page;
      ghost var start, enabled := rows, Enabled(KeysOf(rows));
      var lastID := 0;
      visited, processed := [], [];
      NoneChecked();
      NoneSwept(rows, step);
      while true
        invariant KeysOf(rows) == KeysOf(start) && PartlySwept(start, step, visited, rows)
        invariant visited <= enabled
        invariant lastID == LastOf(visited)
        invariant processed == Checked(visited)
        decreases |enabled| - |visited|
      {
        NextPage(KeysOf(start), visited, batch);
        var page := Page(KeysOf(rows), lastID, batch);
        if |page| == 0 {
          assert visited + page == visited;
          break;
        }
        lastID := page[|page| - 1].id;
        var more := VisitPage(page, step, start, visited);
        CheckedJoins(visited, page);
        SweptKeepsKeys(start, step, visited + page, rows);
        processed := processed + more;
        visited := visited + page;
        if |page| < batch {
          break;
        }
      }
      AllSwept(start, step, rows);
    }
  }

  /** The id that the next query starts after. */
  function LastOf(visited: seq<Key>): int {
    if visited == [] then 0 else visited[|visited| - 1].id
  }

  /** The next page continues what was visited, with fresh channels; a short page is the last one. */
  lemma NextPage(keys: seq<Key>, visited: seq<Key>, batch: nat)
    requires Table(keys) && batch >= 1 && visited <= Enabled(keys)
    ensures var page := Page(keys, LastOf(visited), batch);
            && visited + page <= Enabled(keys)
            && (|page| < batch ==> visited + page == Enabled(keys))
            && (forall i :: 0 <= i < |page| ==> page[i] in keys && page[i] !in visited)
            && forall i, j :: 0 <= i < j < |page| ==> page[i] != page[j]
  {
    hide After, Table, Page;
    var k := |visited|;
    PageIsNext(keys, k, LastOf(visited), batch);
    var page := Page(keys, LastOf(visited), batch);
    assert page <= Enabled(keys)[k..];
    PageIsFresh(keys, visited, page);
  }

  lemma NoneChecked()
    ensures Checked([]) == []
  {
  }

  lemma CheckedNext(page: seq<Key>, n: nat)
    requires n < |page|
    ensures Checked(page[..n + 1]) == Checked(page[..n]) + (if page[n].checked then [page[n].id] else [])
  {
    assert page[..n + 1][..n] == page[..n];
  }

  lemma {:induction false} CheckedJoins(a: seq<Key>, b: seq<Key>)
    ensures Checked(a + b) == Checked(a) + Checked(b)
  {
    if b == [] {
      assert a + b == a;
    } else {
      var init := b[..|b| - 1];
      CheckedJoins(a, init);
      assert (a + b)[..|a + b| - 1] == a + init;
    }
  }

  lemma UncheckedSweeps(start: seq<Stored>, step: Operation, visited: seq<Key>, key: Key, now: seq<Stored>)
    requires PartlySwept(start, step, visited, now)
    ensures !key.checked ==> PartlySwept(start, step, visited + [key], now)
  {
  }

  lemma {:induction false} WriteSweeps(
    start: seq<Stored>, step: Operation, visited: seq<Key>, key: Key, earlier: seq<Stored>, now: seq<Stored>, i: nat)
    requires Table(KeysOf(start)) && PartlySwept(start, step, visited, earlier)
    requires i < |start| && start[i].key == key && key !in visited && key.checked
    requires |now| == |earlier|
    requires forall j :: 0 <= j < |now| ==>
               now[j] ==
               if earlier[j].key.id == key.id then earlier[j].(row := step(key.id, start[i].row)) else earlier[j]
    ensures PartlySwept(start, step, visited + [key], now)
  {
    assert KeysOf(start)[i] == key;
    forall j | 0 <= j < |start| && j != i ensures start[j].key.id != key.id {
      assert KeysOf(start)[j] == start[j].key;
    }
  }

  lemma NoneSwept(rows: seq<Stored>, step: Operation)
    ensures PartlySwept(rows, step, [], rows)
  {
  }

  lemma SweptKeepsKeys(rows: seq<Stored>, step: Operation, visited: seq<Key>, now: seq<Stored>)
    requires PartlySwept(rows, step, visited, now)
    ensures KeysOf(now) == KeysOf(rows)
  {
  }

  lemma AllSwept(rows: seq<Stored>, step: Operation, now: seq<Stored>)
    requires PartlySwept(rows, step, Enabled(KeysOf(rows)), now)
    ensures now == Swept(rows, step)
  {
    hide After;
    forall i | 0 <= i < |rows| ensures rows[i].key in Enabled(KeysOf(rows)) <==> rows[i].key.enabled {
      EnabledExactly(KeysOf(rows), rows[i].key);
      assert KeysOf(rows)[i] in KeysOf(rows);
    }
  }

  /** A page holds channels of the table that were not visited, and none twice. */
  lemma PageIsFresh(keys: seq<Key>, visited: seq<Key>, page: seq<Key>)
    requires Table(keys) && visited + page <= Enabled(keys)
    ensures forall i :: 0 <= i < |page| ==> page[i] in keys && page[i] !in visited
    ensures forall i, j :: 0 <= i < j < |page| ==> page[i] != page[j]
  {
    hide After, Table;
    var enabled := Enabled(keys);
    EnabledAscends(keys);
    assert forall i :: 0 <= i < |page| ==> page[i] == enabled[|visited| + i];
    assert forall i :: 0 <= i < |visited| ==> visited[i] == enabled[i];
    forall i | 0 <= i < |page| ensures page[i] in keys {
      EnabledExactly(keys, page[i]);
    }
  }

  lemma {:induction false} EnabledAscends(keys: seq<Key>)
    requires Table(keys)
    ensures forall i, j :: 0 <= i < j < |Enabled(keys)| ==> Enabled(keys)[i].id < Enabled(keys)[j].id
  {
    if keys != [] {
      var rest := Enabled(keys[1..]);
      EnabledAscends(keys[1..]);
      EnabledAbove(keys[1..], keys[0].id);
      assert Enabled(keys) == if keys[0].enabled then [keys[0]] + rest else rest;
      assert forall j :: 0 < j < |[keys[0]] + rest| ==> ([keys[0]] + rest)[j] == rest[j - 1];
    }
  }

  // ---------- What the sweeps do to a channel ----------

  /** The channel as the sweeps' queries read it. */
  function Unmapped(row: Row): Row {
    row.(mapping := map[])
  }

  /** The list that each channel's upstream has; None when it cannot be fetched. */
  type Upstreams = int -> Option<seq<string>>

  /** Detection for one channel of a sweep; the stored mapping is neither read nor written. */
  function SweptDetect(
    matches: Matcher, row: Row, upstream: Option<seq<string>>, force: bool, allowAuto: bool, now: int,
    minInterval: int): Row
  {
    if !force && row.lastCheck > 0 && now - row.lastCheck < minInterval then row
    else DetectStep(matches, Unmapped(row), upstream, allowAuto, now).(mapping := row.mapping)
  }

  /** Applying everything that is pending; a channel with nothing pending is passed over. */
  function SweptApply(row: Row, now: int): Row {
    var add, remove := Normalize(row.detected), Normalize(row.removed);
    if add == [] && remove == [] then row else ApplyStep(row, add, [], remove, now).0
  }

  /** DetectAllChannelUpstreamModelUpdates with `force`, the periodic task without it but with automatic sync. */
  function DetectAll(
    matches: Matcher, upstreams: Upstreams, force: bool, allowAuto: bool, now: int, minInterval: int): Operation
  {
    (id: int, row: Row) => SweptDetect(matches, row, upstreams(id), force, allowAuto, now, minInterval)
  }

  /** ApplyAllChannelUpstreamModelUpdates */
  function ApplyAll(now: int): Operation {
    (id: int, row: Row) => SweptApply(row, now)
  }

  /** A channel that was checked less than the interval ago is passed over unless the check is forced. */
  lemma RecentIsPassedOver(
    matches: Matcher, row: Row, upstream: Option<seq<string>>, force: bool, allowAuto: bool, now: int, minInterval: int)
    ensures var next := SweptDetect(matches, row, upstream, force, allowAuto, now, minInterval);
            && next.mapping == row.mapping
            && (!force && 1 <= row.lastCheck && now < row.lastCheck + minInterval ==> next == row)
            && (force || row.lastCheck <= 0 || row.lastCheck + minInterval <= now ==>
                  && next.lastCheck == now
                  && Unmapped(next) == Unmapped(DetectStep(matches, Unmapped(row), upstream, allowAuto, now)))
  {
    hide Entries, Normalize;
  }

  // ---------- The missing mapping ----------

  /** The sweeps find what detection on the whole row finds exactly when no upstream name counts as present only because
      it is an alias target, and upstream lists every alias source that the channel serves. */
  lemma SweepAgreesExactly(matches: Matcher, row: Row, upstream: seq<string>)
    ensures var local := Entries(row.models, ',');
            (PendingAdd(matches, local, upstream, row.ignored, map[])
               == PendingAdd(matches, local, upstream, row.ignored, row.mapping)
             && PendingRemove(local, upstream, map[]) == PendingRemove(local, upstream, row.mapping))
            <==>
            (forall u <- Names(upstream) :: u in row.mapping.Values ==>
               u in LocalModels(row) || Withheld(matches, Names(row.ignored), u))
            && (forall l <- LocalModels(row) :: l in row.mapping.Keys ==> l in Names(upstream))
  {
    hide Entries, Normalize, Names, Withheld, Filter;
    var local := Entries(row.models, ',');
    PendingSets(matches, row, upstream);
    PendingSets(matches, Unmapped(row), upstream);
    SameFilter(Normalize(upstream), Missing(matches, Normalize(local), Names(row.ignored), map[]),
               Missing(matches, Normalize(local), Names(row.ignored), row.mapping));
    SameFilter(Normalize(local), Stale(Normalize(upstream), map[]), Stale(Normalize(upstream), row.mapping));
  }

  /** Two filters of one list agree when they keep the same elements. */
  lemma {:induction false} SameFilter(s: seq<string>, p: string -> bool, q: string -> bool)
    ensures Filter(s, p) == Filter(s, q) <==> forall x <- s :: p(x) == q(x)
  {
    if s != [] {
      var init, last := s[..|s| - 1], s[|s| - 1];
      InLast(s);
      SameFilter(init, p, q);
      if Filter(s, p) == Filter(s, q) {
        assert forall x <- s :: x in Filter(s, p) <==> x in Filter(s, q);
      }
    }
  }

  /** Detecting and applying on one channel that is not passed over. */
  lemma SweptTwice(matches: Matcher, row: Row, upstream: seq<string>, now: int)
    ensures var found := SweptDetect(matches, row, Some(upstream), true, false, now, 0);
            var pending := PendingAdd(matches, Entries(row.models, ','), upstream, row.ignored, map[]) != []
                           || PendingRemove(Entries(row.models, ','), upstream, map[]) != [];
            SweptApply(found, now) ==
            if pending then DetectAndApply(matches, Unmapped(row), upstream, false, now).(mapping := row.mapping)
            else found
  {
    hide Entries, Join, Normalize, ApplySelected, Merge, Subtract, Intersect;
    var local := Entries(row.models, ',');
    PendingFixed(matches, local, upstream, row.ignored);
  }

  lemma PendingFixed(matches: Matcher, local: seq<string>, upstream: seq<string>, ignored: seq<string>)
    ensures var add := PendingAdd(matches, local, upstream, ignored, map[]);
            var remove := PendingRemove(local, upstream, map[]);
            Normalize(add) == add && Normalize(remove) == remove
  {
    hide Normalize, Names, Name, Withheld;
    Normal(local);
    Normal(upstream);
    NormalizeFixed(PendingAdd(matches, local, upstream, ignored, map[]));
    NormalizeFixed(PendingRemove(local, upstream, map[]));
  }

  // ---------- Detecting, applying, and detecting again on the whole table ----------

  lemma SweptConverges(matches: Matcher, row: Row, upstream: seq<string>, now: int)
    ensures var found := SweptDetect(matches, row, Some(upstream), true, false, now, 0);
            NothingPending(SweptDetect(matches, SweptApply(found, now), Some(upstream), true, false, now, 0))
            <==> Settles(matches, Unmapped(row), upstream)
  {
    hide Entries, Normalize, Names, Withheld, DetectAndApply, SweptApply;
    var found := SweptDetect(matches, row, Some(upstream), true, false, now, 0);
    SweptTwice(matches, row, upstream, now);
    var add := PendingAdd(matches, Entries(row.models, ','), upstream, row.ignored, map[]);
    var remove := PendingRemove(Entries(row.models, ','), upstream, map[]);
    if add != [] || remove != [] {
      ReconciliationConverges(matches, Unmapped(row), upstream, now);
      UnmappedStays(matches, row, upstream, now);
      var applied := DetectAndApply(matches, Unmapped(row), upstream, false, now);
      assert Unmapped(applied.(mapping := row.mapping)) == applied;
    } else {
      assert Names(row.ignored) - Elements(add) == Names(row.ignored);
    }
  }

  lemma UnmappedStays(matches: Matcher, row: Row, upstream: seq<string>, now: int)
    ensures DetectAndApply(matches, Unmapped(row), upstream, false, now).mapping == map[]
  {
    hide Entries, Join, Normalize, ApplySelected, Merge, Subtract, Intersect, PendingAdd, PendingRemove;
  }

  /** After detecting, applying everything and detecting again on the whole table, a channel has nothing pending exactly
      when it settles as the sweeps see it, without its mapping; each channel on its own. */
  lemma FleetConverges(rows: seq<Stored>, matches: Matcher, upstreams: Upstreams, now: int, i: nat)
    requires i < |rows| && Visits(rows[i].key) && upstreams(rows[i].key.id).Some?
    ensures var detect := DetectAll(matches, upstreams, true, false, now, 0);
            NothingPending(Swept(Swept(Swept(rows, detect), ApplyAll(now)), detect)[i].row)
            <==> Settles(matches, Unmapped(rows[i].row), upstreams(rows[i].key.id).value)
  {
    hide Settles, SweptDetect, SweptApply, NothingPending;
    SweptConverges(matches, rows[i].row, upstreams(rows[i].key.id).value, now);
    var detect := DetectAll(matches, upstreams, true, false, now, 0);
    var once := Swept(rows, detect);
    assert once[i].row == detect(rows[i].key.id, rows[i].row);
    var applied := Swept(once, ApplyAll(now));
    assert applied[i].row == ApplyAll(now)(once[i].key.id, once[i].row);
  }

  /** An alias source that a channel serves survives detecting and applying on its own row; in the sweeps it survives
      exactly when upstream happens to list it. */
  lemma AliasSurvivesExactly(matches: Matcher, row: Row, upstream: seq<string>, now: int, alias: string)
    requires alias in LocalModels(row) && alias in row.mapping.Keys
    requires NoComma(PendingAdd(matches, Entries(row.models, ','), upstream, row.ignored, map[]))
    ensures alias in LocalModels(DetectAndApply(matches, row, upstream, false, now))
    ensures var found := SweptDetect(matches, row, Some(upstream), true, false, now, 0);
            alias in LocalModels(SweptApply(found, now)) <==> alias in Names(upstream)
  {
    hide Entries, Normalize, Names, Withheld, DetectAndApply, SweptApply, LocalModels;
    PendingSets(matches, row, upstream);
    PendingSets(matches, Unmapped(row), upstream);
    AppliedModels(matches, row, upstream, now);
    AppliedModels(matches, Unmapped(row), upstream, now);
    SweptTwice(matches, row, upstream, now);
    SameModels(DetectAndApply(matches, Unmapped(row), upstream, false, now), row);
    DetectKeepsModels(matches, row, upstream, now);
    assert alias in Elements(LocalModels(row));
    var kept := DetectAndApply(matches, row, upstream, false, now);
    assert forall l :: l in Elements(LocalModels(kept)) <==> l in LocalModels(kept);
    var swept := DetectAndApply(matches, Unmapped(row), upstream, false, now);
    assert forall l :: l in Elements(LocalModels(swept)) <==> l in LocalModels(swept);
  }

  lemma DetectKeepsModels(matches: Matcher, row: Row, upstream: seq<string>, now: int)
    ensures LocalModels(SweptDetect(matches, row, Some(upstream), true, false, now, 0)) == LocalModels(row)
  {
    hide Entries, Normalize;
  }

  lemma SameModels(a: Row, row: Row)
    ensures LocalModels(a.(mapping := row.mapping)) == LocalModels(a) && LocalModels(Unmapped(row)) == LocalModels(row)
  {
  }

  /** A channel that serves "a" by its upstream's "b": detection on the row finds nothing to do, and the sweeps take the
      alias out. */
  lemma SweepDropsAlias(matches: Matcher, now: int)
    ensures var row := EmptyRow([]).(models := "a", mapping := map["a" := "b"]);
            var found := SweptDetect(matches, row, Some(["b"]), true, false, now, 0);
            && LocalModels(row) == ["a"] && NothingPending(DetectStep(matches, row, Some(["b"]), false, now))
            && "a" !in LocalModels(SweptApply(found, now))
  {
    hide Entries, Normalize, Names, SweptDetect, SweptApply, DetectStep, PendingAdd;
    var row := EmptyRow([]).(models := "a", mapping := map["a" := "b"]);
    OneModel();
    OneName("b");
    OneAlias();
    NothingToDo(matches, row, ["b"], now);
    PendingSets(matches, Unmapped(row), ["b"]);
    AliasSurvivesExactly(matches, row, ["b"], now, "a");
  }

  lemma OneAlias()
    ensures var mapping := map["a" := "b"]; mapping.Keys == {"a"} && mapping.Values == {"b"}
  {
    var mapping := map["a" := "b"];
    assert mapping["a"] == "b" && "b" in mapping.Values;
    assert forall v :: v in mapping.Values ==> exists k :: k in mapping && mapping[k] == v;
  }

  lemma OneModel()
    ensures Normalize(Entries("a", ',')) == ["a"]
  {
    hide Normalize;
    SplitSingle("a", ',');
    assert Normalized(["a"]);
    NormalizeFixed(["a"]);
  }
}
