/** The migrator itself: the class Migrator of bin/migrate_agent_users.py, whose lists and maps grow in place. */
module AgentMigrator {
  import opened Options
  import opened Seqs
  import opened AgentUsers
  import opened AgentTree
  import opened AgentMigration
  import opened AgentRuns
  import opened AgentInviters
  import opened AgentRelations

  predicate Ascending(ids: seq<int>) {
    forall i, j :: 0 <= i < j < |ids| ==> ids[i] < ids[j]
  }

  /** sorted */
  method SortedIds(s: set<int>) returns (ids: seq<int>)
    ensures Ascending(ids) && forall x :: x in ids <==> x in s
  {
    ids := [];
    var todo := s;
    while todo != {}
      invariant todo <= s && Ascending(ids) && forall x :: x in s <==> x in ids || x in todo
      invariant forall i :: 0 <= i < |ids| ==> forall y <- todo :: ids[i] < y
      decreases |todo|
    {
      var x := Least(todo);
      ids := ids + [x];
      todo := todo - {x};
    }
  }

  class Migrator {
    const env: Env
    const sel: Selection
    const source: Table
    const sourceRelations: seq<Relation>

    var target: Table
    var nextID: int
    var relations: seq<Relation>

    var affCodes: set<string>
    var claimed: set<(Column, string)>
    var inserted: seq<Entry>
    var same: seq<int>
    var manual: seq<int>
    var taken: seq<int>
    var oldToNew: map<int, int>
    var resolved: set<int>
    var dropped: seq<Dropped>
    var relationsCandidate: nat
    var relationsMigrated: nat
    var relationsSkipped: nat

    ghost predicate Valid()
      reads this
    {
      NoRepeats(env.columns) && IdsBelow(target, nextID)
    }

    function State(): Progress
      reads this
    {
      Progress(target, nextID, affCodes, claimed, inserted, same, manual, taken, oldToNew, resolved, dropped)
    }

    constructor (env: Env, sel: Selection, source: Table, sourceRelations: seq<Relation>, target: Table, nextID: int,
        relations: seq<Relation>)
      requires NoRepeats(env.columns) && IdsBelow(target, nextID)
      ensures Valid() && this.env == env && this.sel == sel && this.source == source
              && this.sourceRelations == sourceRelations
      ensures this.relations == relations && State() == Start(target, nextID).(affCodes := {})
      ensures relationsCandidate == relationsMigrated == relationsSkipped == 0
    {
      this.env, this.sel, this.source, this.sourceRelations := env, sel, source, sourceRelations;
      this.target, this.nextID, this.relations := target, nextID, relations;
      affCodes, claimed, inserted, same, manual, taken := {}, {}, [], [], [], [];
      oldToNew, resolved, dropped := map[], {}, [];
      relationsCandidate, relationsMigrated, relationsSkipped := 0, 0, 0;
    }

    method PreloadAffCodes()
      modifies `affCodes
      ensures affCodes == old(affCodes) + UsedCodes(target)
    {
      affCodes := affCodes + UsedCodes(target);
    }

    /** A code that is free is kept; otherwise codes are drawn until one is free, and a longer one is taken unseen when
        none of them was. The codes in use include those of the target, which the preload put there. */
    method ResolveAffCode(code: string) returns (r: string)
      modifies `affCodes
      ensures r == AffCode(env, old(affCodes), code) && affCodes == old(affCodes) + {r}
      ensures var used := old(affCodes);
              r !in used ||
              (r == env.codes.fallback(used) && forall k: nat :: k < TRIES ==> env.codes.draw(used, k) in used)
    {
      var own := Strip(code);
      if own != "" && own !in affCodes {
        affCodes := affCodes + {own};
        return own;
      }
      for k := 0 to TRIES
        invariant affCodes == old(affCodes)
        invariant Drawn(env.codes, affCodes, k) == Drawn(env.codes, affCodes, 0)
        invariant forall j: nat :: j < k ==> env.codes.draw(affCodes, j) in affCodes
      {
        var drawn := env.codes.draw(affCodes, k);
        if drawn !in affCodes {
          affCodes := affCodes + {drawn};
          return drawn;
        }
      }
      r := env.codes.fallback(affCodes);
      affCodes := affCodes + {r};
    }

    /** A binding that the target holds or this run has claimed is dropped. */
    method ResolveBinding(col: Column, raw: string, username: string) returns (kept: string)
      modifies `claimed, `dropped
      ensures var value := Strip(raw);
              var isTaken := BindingTaken(target, old(claimed), col, value);
              && kept == (if value == "" || isTaken then "" else value)
              && claimed == old(claimed) + (if kept == "" then {} else {(col, kept)})
              && dropped == old(dropped) + (if value != "" && isTaken then [Dropped(username, col, value)] else [])
    {
      var value := Strip(raw);
      if value == "" {
        return "";
      }
      if BindingTaken(target, claimed, col, value) {
        dropped := dropped + [Dropped(username, col, value)];
        return "";
      }
      claimed := claimed + {(col, value)};
      return value;
    }

    method BuildInsertValues(row: User) returns (u: User)
      requires Valid()
      modifies `affCodes, `claimed, `dropped
      ensures u == NewUser(env, old(State()), row) && State() == Built(env, old(State()), row)
    {
      hide Strip, BoundValue, BoundValues, BindingTaken, NewlyClaimed, NewlyDropped, AffCode, IdsBelow;
      ghost var p := State();
      var code := ResolveAffCode(row.affCode);
      var bindings: map<Column, string> := map[];
      BuildNothing(p, row);
      for i := 0 to |env.columns|
        invariant target == p.target
        invariant State() == p.(affCodes := p.affCodes + {code}, claimed := claimed, dropped := dropped)
        invariant claimed == p.claimed + NewlyClaimed(p, row, env.columns[..i])
        invariant dropped == p.dropped + NewlyDropped(p, row, env.columns[..i])
        invariant bindings == BoundValues(p, row, env.columns[..i])
      {
        var col := env.columns[i];
        assert env.columns[..i + 1] == env.columns[..i] + [col];
        BuildColumn(p, row, env.columns[..i], col);
        var kept := ResolveBinding(col, Binding(row, col), row.username);
        bindings := bindings[col := kept];
      }
      assert env.columns[..|env.columns|] == env.columns;
      u := row.(
        inviter := 0, isDeleted := false, updatedAt := env.now, amount := 0, token := None, affCode := code,
        bindings := bindings);
    }

    method PlaceUser(oldID: int, row: User)
      requires Valid()
      modifies this
      ensures Valid() && State() == Place(env, old(State()), oldID, row)
      ensures relations == old(relations) && relationsCandidate == old(relationsCandidate)
      ensures relationsMigrated == old(relationsMigrated) && relationsSkipped == old(relationsSkipped)
    {
      hide Built, NewUser, Classify, IdsBelow, NoRepeats;
      ghost var p := State();
      BuiltKeeps(env, p, row);
      BelowGrows(target, nextID, NewUser(env, p, row));
      match Classify(target, row)
      case SamePerson(id) =>
        same := same + [oldID];
        oldToNew := oldToNew[oldID := id];
        resolved := resolved + {oldID};
      case Manual =>
        manual := manual + [oldID];
      case ContactTaken =>
        taken := taken + [oldID];
      case Newcomer =>
        var u := BuildInsertValues(row);
        resolved := resolved + {oldID};
        if env.execute {
          target := target[nextID := u];
          oldToNew := oldToNew[oldID := nextID];
          inserted := inserted + [Entry(oldID, Some(nextID))];
          nextID := nextID + 1;
        } else {
          inserted := inserted + [Entry(oldID, None)];
        }
    }

    /** The second pass over the inserted users. */
    method RelinkInviters()
      modifies `target
      ensures target == Relink(source, old(target), inserted, oldToNew)
    {
      hide Image;
      for i := 0 to |inserted|
        invariant target == Relink(source, old(target), inserted[..i], oldToNew)
      {
        assert inserted[..i + 1][..i] == inserted[..i];
        var e := inserted[i];
        if e.oldID in source && e.created.Some? && e.created.value in target {
          var image := Image(oldToNew, source[e.oldID].inviter);
          if image != 0 {
            target := target[e.created.value := target[e.created.value].(inviter := image)];
          }
        }
      }
      assert inserted[..|inserted|] == inserted;
    }

    method RelationCandidates() returns (r: seq<Relation>)
      ensures r == Candidates(sourceRelations, resolved)
    {
      r := [];
      for i := 0 to |sourceRelations|
        invariant r == Candidates(sourceRelations[..i], resolved)
      {
        assert sourceRelations[..i + 1][..i] == sourceRelations[..i];
        var rel := sourceRelations[i];
        if rel.inviter in resolved && rel.invitee in resolved {
          r := r + [rel];
        }
      }
      assert sourceRelations[..|sourceRelations|] == sourceRelations;
    }

    ghost function Counts(): Tally
      reads this
    {
      Tally(relations, relationsMigrated, relationsSkipped)
    }

    method MigrateRelations()
      modifies `relations, `relationsCandidate, `relationsMigrated, `relationsSkipped
      ensures var candidates := Candidates(sourceRelations, resolved);
              relationsCandidate == |candidates| && Counts() == MoveAll(env, oldToNew, old(Counts()), candidates)
    {
      hide Candidates, HasPair;
      var candidates := RelationCandidates();
      relationsCandidate := |candidates|;
      for i := 0 to |candidates|
        invariant Counts() == MoveAll(env, oldToNew, old(Counts()), candidates[..i])
        invariant relationsCandidate == |candidates|
      {
        assert candidates[..i + 1][..i] == candidates[..i];
        var moved := Moved(env, oldToNew, candidates[i]);
        if !env.execute {
          relationsMigrated := relationsMigrated + 1;
        } else if moved.inviter != 0 && moved.invitee != 0 {
          if HasPair(relations, moved.inviter, moved.invitee) {
            relationsSkipped := relationsSkipped + 1;
          } else {
            relations := relations + [moved];
            relationsMigrated := relationsMigrated + 1;
          }
        }
      }
      assert candidates[..|candidates|] == candidates;
    }

    /** The first pass, over the users in the given order. */
    method PlaceUsers(ids: seq<int>)
      requires Valid() && InSource(source, ids)
      modifies this
      ensures Valid() && State() == PlaceAll(env, source, old(State()), ids)
      ensures Counts() == old(Counts())
    {
      hide Place, IdsBelow;
      for i := 0 to |ids|
        invariant Valid() && State() == PlaceAll(env, source, old(State()), ids[..i])
        invariant Counts() == old(Counts())
      {
        assert ids[..i + 1][..i] == ids[..i];
        PlaceUser(ids[i], source[ids[i]]);
      }
      assert ids[..|ids|] == ids;
    }

    /** The whole run. `ids` is the order in which the users were placed. */
    method Run(size: nat) returns (ids: seq<int>)
      requires Valid() && size >= 1
      requires State() == Start(target, nextID).(affCodes := {}) && relationsMigrated == relationsSkipped == 0
      modifies this
      ensures Ascending(ids) && InSource(source, ids) && IsInviteTree(sel, source, Elements(ids))
      ensures var p := PlaceAll(env, source, Start(old(target), old(nextID)), ids);
              var candidates := Candidates(sourceRelations, p.resolved);
              && State() == p.(target := if env.execute then Final(source, p) else old(target))
              && relationsCandidate == |candidates|
              && Counts() == MoveAll(env, p.oldToNew, Tally(old(relations), 0, 0), candidates)
    {
      hide PlaceAll, IsInviteTree, Relink, Candidates, MoveAll, UsedCodes, IdsBelow;
      var _, tree := CollectUserIds(sel, source, size);
      ids := SortedIds(tree);
      assert Elements(ids) == tree by {
        assert forall x :: x in ids <==> x in tree;
      }
      assert forall i :: 0 <= i < |ids| ==> ids[i] in tree;
      PreloadAffCodes();
      assert State() == Start(target, nextID);
      PlaceUsers(ids);
      if env.execute {
        RelinkInviters();
      } else {
        PreviewKeepsTable(env, source, old(target), old(nextID), ids);
      }
      MigrateRelations();
    }
  }

  function Elements(ids: seq<int>): set<int> {
    set x | x in ids
  }

  lemma PreviewKeepsTable(env: Env, source: Table, t0: Table, n0: int, ids: seq<int>)
    requires !env.execute && InSource(source, ids)
    ensures PlaceAll(env, source, Start(t0, n0), ids).target == t0
  {
    assert Preview(env, env) == env;
    PreviewInserts(env, env, source, t0, n0, ids);
  }

  lemma BelowGrows(t: Table, n: int, u: User)
    requires IdsBelow(t, n)
    ensures IdsBelow(t[n := u], n + 1)
  {
  }

  lemma BuildNothing(p: Progress, row: User)
    ensures NewlyClaimed(p, row, []) == {} && NewlyDropped(p, row, []) == [] && BoundValues(p, row, []) == map[]
  {
  }

  /** One column of a newcomer: the values claimed for other columns do not matter. */
  lemma BuildColumn(p: Progress, row: User, columns: seq<Column>, col: Column)
    requires col !in columns
    ensures var value := Strip(Binding(row, col));
            var isTaken := BindingTaken(p.target, p.claimed, col, value);
            var kept := if value == "" || isTaken then "" else value;
            && BindingTaken(p.target, p.claimed + NewlyClaimed(p, row, columns), col, value) == isTaken
            && BoundValue(p.target, p.claimed, row, col) == kept
            && BoundValues(p, row, columns + [col]) == BoundValues(p, row, columns)[col := kept]
            && NewlyClaimed(p, row, columns + [col]) ==
              NewlyClaimed(p, row, columns) + (if kept == "" then {} else {(col, kept)})
            && NewlyDropped(p, row, columns + [col]) ==
               NewlyDropped(p, row, columns)
                 + (if value != "" && isTaken then [Dropped(row.username, col, value)] else [])
  {
    hide Strip;
    ClaimsElsewhere(p, row, columns, col, Strip(Binding(row, col)));
    ClaimsGrow(p, row, columns, col);
    assert (columns + [col])[..|columns|] == columns;
  }

  lemma ClaimsElsewhere(p: Progress, row: User, columns: seq<Column>, col: Column, value: string)
    requires col !in columns
    ensures BindingTaken(p.target, p.claimed + NewlyClaimed(p, row, columns), col, value) ==
            BindingTaken(p.target, p.claimed, col, value)
  {
    hide Strip, BoundValue;
  }

  lemma ClaimsGrow(p: Progress, row: User, columns: seq<Column>, col: Column)
    ensures var value := BoundValue(p.target, p.claimed, row, col);
            NewlyClaimed(p, row, columns + [col]) ==
              NewlyClaimed(p, row, columns) + (if value == "" then {} else {(col, value)})
  {
    hide BoundValue;
    assert forall c :: c in columns + [col] <==> c in columns || c == col;
  }
}
