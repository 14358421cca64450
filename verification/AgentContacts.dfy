/** When contacts stay unique in the target, in terms of the source and the target before the run
    (bin/migrate_agent_users.py). */
module AgentContacts {
  import opened Options
  import opened Seqs
  import opened AgentUsers
  import opened AgentMigration
  import opened AgentRuns

  // ---------- Who will be inserted ----------

  /** Once `a` is inserted, `b` is found by its name or by its contact. */
  predicate Blocks(a: User, b: User) {
    (b.username != "" && a.username == b.username) || HoldsContact(b, a)
  }

  /** The users that a run inserts, read off the source and the target before the run. */
  function WillInsert(source: Table, t0: Table, ids: seq<int>): (r: seq<int>)
    requires InSource(source, ids)
    ensures forall k :: 0 <= k < |r| ==> r[k] in ids && r[k] in source
  {
    if ids == [] then [] else
      var rest, last := WillInsert(source, t0, ids[..|ids| - 1]), ids[|ids| - 1];
      if
        && Classify(t0, source[last]) == Newcomer
        && forall k :: 0 <= k < |rest| ==> !Blocks(source[rest[k]], source[last])
      then rest + [last]
      else rest
  }

  lemma NewcomerInGrownTarget(t0: Table, t: Table, row: User)
    requires t0.Keys <= t.Keys && forall id <- t0 :: t[id] == t0[id]
    ensures Classify(t, row) == Newcomer <==>
            Classify(t0, row) == Newcomer && !NameAdded(t0, t, row) && !ContactAdded(t0, t, row)
  {
    hide SameContact, HoldsContact;
    NamedGrows(t0, t, row);
  }

  lemma CopyBlocks(env: Env, u: User, v: User, row: User)
    requires IsCopy(env, u, v)
    ensures u.username == v.username && (HoldsContact(row, u) <==> HoldsContact(row, v))
  {
  }

  /** What the new rows add is what the inserted users bring. */
  lemma AddedIsBlocked(env: Env, source: Table, t0: Table, n0: int, p: Progress, ids: seq<int>, row: User)
    requires Entered(env, source, t0, n0, p, ids) && IdsBelow(t0, n0)
    ensures NameAdded(t0, p.target, row) || ContactAdded(t0, p.target, row) <==>
            exists k :: 0 <= k < |p.inserted| && p.inserted[k].oldID in source
              && Blocks(source[p.inserted[k].oldID], row)
  {
    hide IsCopy, HoldsContact;
    forall k | 0 <= k < |p.inserted| ensures IsNewRow(env, source, t0, p, p.inserted[k]) {
      assert IsEntry(env, source, p, p.inserted[k]);
    }
    if NameAdded(t0, p.target, row) || ContactAdded(t0, p.target, row) {
      var n :| n in p.target && n !in t0 &&
        ((row.username != "" && p.target[n].username == row.username) || HoldsContact(row, p.target[n]));
      var k :| 0 <= k < |p.inserted| && p.inserted[k].created == Some(n);
      CopyBlocks(env, p.target[n], source[p.inserted[k].oldID], row);
    }
    if k :| 0 <= k < |p.inserted| && p.inserted[k].oldID in source && Blocks(source[p.inserted[k].oldID], row) {
      var n := p.inserted[k].created.value;
      CopyBlocks(env, p.target[n], source[p.inserted[k].oldID], row);
      assert n !in t0;
    }
  }

  ghost predicate IsNewRow(env: Env, source: Table, t0: Table, p: Progress, e: Entry) {
    && e.created.Some? && e.created.value in p.target && e.created.value !in t0
    && e.oldID in source && IsCopy(env, p.target[e.created.value], source[e.oldID])
  }

  /** The run inserts exactly those users, in that order. */
  lemma {:induction false} InsertsExactly(env: Env, source: Table, t0: Table, n0: int, ids: seq<int>)
    requires env.execute && InSource(source, ids) && NoRepeats(ids) && IdsBelow(t0, n0)
    ensures OldIds(PlaceAll(env, source, Start(t0, n0), ids).inserted) == WillInsert(source, t0, ids)
  {
    hide Place, Classify, Blocks, Entered, Grown, OldIds;
    if ids == [] {
      NobodyInserted(t0, n0);
    } else {
      var init, last := ids[..|ids| - 1], ids[|ids| - 1];
      InsertsExactly(env, source, t0, n0, init);
      NewRowsAreCopies(env, source, t0, n0, init);
      TargetGrows(env, source, t0, n0, init);
      var p := PlaceAll(env, source, Start(t0, n0), init);
      NextIsNewcomer(env, source, t0, n0, p, init, source[last]);
      PlaceAppends(env, p, last, source[last], 0);
    }
  }

  lemma NextIsNewcomer(env: Env, source: Table, t0: Table, n0: int, p: Progress, ids: seq<int>, row: User)
    requires Entered(env, source, t0, n0, p, ids) && Grown(env, t0, n0, p) && IdsBelow(t0, n0)
    ensures forall k :: 0 <= k < |OldIds(p.inserted)| ==> OldIds(p.inserted)[k] in source
    ensures ListFor(Classify(p.target, row)) == 0 <==>
            Classify(t0, row) == Newcomer && forall k :: 0 <= k < |OldIds(p.inserted)| ==>
              !Blocks(source[OldIds(p.inserted)[k]], row)
  {
    hide Classify, Blocks, NameAdded, ContactAdded;
    NewcomerInGrownTarget(t0, p.target, row);
    AddedIsBlocked(env, source, t0, n0, p, ids, row);
    OldIdsAt(p.inserted);
    assert forall k :: 0 <= k < |p.inserted| ==> IsEntry(env, source, p, p.inserted[k]);
  }

  // ---------- When contacts stay unique ----------

  /** No inserted user that the check does not protect brings a contact that the target or another inserted user has. */
  predicate ContactsApart(source: Table, t0: Table, inserted: seq<int>, kind: Kind)
    requires forall k :: 0 <= k < |inserted| ==> inserted[k] in source
  {
    forall i :: 0 <= i < |inserted| ==>
      var u := source[inserted[i]];
      Unprotected(kind, u) && Contact(kind, u) != "" ==>
        && (forall id <- t0 :: Contact(kind, t0[id]) != Contact(kind, u))
        && (forall j :: 0 <= j < |inserted| && j != i ==> Contact(kind, source[inserted[j]]) != Contact(kind, u))
  }

  /** A new row's contact and whether it is protected are those of its source row. */
  lemma CopyContact(env: Env, u: User, v: User, kind: Kind)
    requires IsCopy(env, u, v)
    ensures Contact(kind, u) == Contact(kind, v) && Unprotected(kind, u) == Unprotected(kind, v)
  {
  }

  /** No unprotected new row repeats another row's contact. */
  predicate RowsApart(t0: Table, t: Table, kind: Kind) {
    forall n <- t, m <- t ::
      n !in t0 && m != n && Unprotected(kind, t[n]) && Contact(kind, t[n]) != "" ==>
        Contact(kind, t[m]) != Contact(kind, t[n])
  }

  /** The i-th inserted user and its row. */
  lemma RowOfInserted(env: Env, source: Table, t0: Table, n0: int, p: Progress, ids: seq<int>, kind: Kind,
      i: nat)
    returns (n: int)
    requires Entered(env, source, t0, n0, p, ids) && IdsBelow(t0, n0) && i < |p.inserted|
    ensures p.inserted[i].oldID in source && p.inserted[i].created == Some(n) && n in p.target && n !in t0
    ensures Contact(kind, p.target[n]) == Contact(kind, source[p.inserted[i].oldID])
    ensures Unprotected(kind, p.target[n]) == Unprotected(kind, source[p.inserted[i].oldID])
  {
    hide IsCopy, Contact, Unprotected;
    assert IsEntry(env, source, p, p.inserted[i]);
    n := p.inserted[i].created.value;
    CopyContact(env, p.target[n], source[p.inserted[i].oldID], kind);
  }

  lemma RowsApartIsSourceApart(env: Env, source: Table, t0: Table, n0: int, p: Progress, ids: seq<int>, olds: seq<int>,
      kind: Kind)
    requires Entered(env, source, t0, n0, p, ids) && IdsBelow(t0, n0) && Grown(env, t0, n0, p)
    requires olds == OldIds(p.inserted) && forall k :: 0 <= k < |olds| ==> olds[k] in source
    ensures RowsApart(t0, p.target, kind) <==> ContactsApart(source, t0, olds, kind)
  {
    hide Contact, Unprotected, IsEntry, OldIds;
    OldIdsAt(p.inserted);
    if RowsApart(t0, p.target, kind) {
      forall i | 0 <= i < |olds| && Unprotected(kind, source[olds[i]]) && Contact(kind, source[olds[i]]) != ""
        ensures forall id <- t0 :: Contact(kind, t0[id]) != Contact(kind, source[olds[i]])
        ensures forall j :: 0 <= j < |olds| && j != i ==>
                Contact(kind, source[olds[j]]) != Contact(kind, source[olds[i]])
      {
        var n := RowOfInserted(env, source, t0, n0, p, ids, kind, i);
        forall id | id in t0 ensures Contact(kind, t0[id]) != Contact(kind, source[olds[i]]) {
          assert id in p.target && id != n;
        }
        forall j | 0 <= j < |olds| && j != i ensures Contact(kind, source[olds[j]]) != Contact(kind, source[olds[i]]) {
          var m := RowOfInserted(env, source, t0, n0, p, ids, kind, j);
          assert i < j || j < i;
        }
      }
    }
    if ContactsApart(source, t0, olds, kind) {
      SourceApartIsRowsApart(env, source, t0, n0, p, ids, olds, kind);
    }
  }

  lemma SourceApartIsRowsApart(env: Env, source: Table, t0: Table, n0: int, p: Progress, ids: seq<int>, olds: seq<int>,
      kind: Kind)
    requires Entered(env, source, t0, n0, p, ids) && IdsBelow(t0, n0) && Grown(env, t0, n0, p)
    requires olds == OldIds(p.inserted) && forall k :: 0 <= k < |olds| ==> olds[k] in source
    requires ContactsApart(source, t0, olds, kind)
    ensures RowsApart(t0, p.target, kind)
  {
    hide Contact, Unprotected, IsEntry, OldIds;
    OldIdsAt(p.inserted);
    forall n, m | n in p.target && m in p.target && n !in t0 && m != n && Unprotected(kind, p.target[n])
        && Contact(kind, p.target[n]) != ""
      ensures Contact(kind, p.target[m]) != Contact(kind, p.target[n])
    {
      var i :| 0 <= i < |p.inserted| && p.inserted[i].created == Some(n);
      var x := RowOfInserted(env, source, t0, n0, p, ids, kind, i);
      assert Unprotected(kind, source[olds[i]]);
      if m !in t0 {
        var j :| 0 <= j < |p.inserted| && p.inserted[j].created == Some(m);
        var y := RowOfInserted(env, source, t0, n0, p, ids, kind, j);
        assert olds[j] == p.inserted[j].oldID;
      }
    }
  }

  /** Contacts stay unique exactly when they are unique in the target and no user who will be inserted without a
      username or with an untrimmed contact brings a contact that the target or another inserted user has. */
  lemma ContactsUniqueExactly(env: Env, source: Table, t0: Table, n0: int, ids: seq<int>, kind: Kind)
    requires env.execute && InSource(source, ids) && NoRepeats(ids) && IdsBelow(t0, n0)
    ensures UniqueContact(PlaceAll(env, source, Start(t0, n0), ids).target, kind) <==>
            UniqueContact(t0, kind) && ContactsApart(source, t0, WillInsert(source, t0, ids), kind)
  {
    hide PlaceAll, Entered, Grown, UniqueContact, ContactsApart, WillInsert, OldIds;
    var p := PlaceAll(env, source, Start(t0, n0), ids);
    NewRowsAreCopies(env, source, t0, n0, ids);
    TargetGrows(env, source, t0, n0, ids);
    InsertsExactly(env, source, t0, n0, ids);
    RowsApartIsSourceApart(env, source, t0, n0, p, ids, WillInsert(source, t0, ids), kind);
    ContactsStayUnique(env, source, t0, n0, ids, kind);
  }

  /** When no user is surprised, those who will be inserted are the newcomers of the target before the run. */
  lemma UnsurprisedInserts(env: Env, source: Table, t0: Table, n0: int, ids: seq<int>, id: int)
    requires InSource(source, ids) && NoRepeats(ids) && IdsBelow(t0, n0) && NoSurprise(source, t0, ids)
    ensures id in WillInsert(source, t0, ids) <==> id in ids && Classify(t0, source[id]) == Newcomer
  {
    hide PlaceAll, WillInsert, OldIds, NoSurprise, Classify;
    PreviewPredicts(env, env, source, t0, n0, ids);
    PreviewInserts(env, env, source, t0, n0, ids);
    InsertsExactly(Real(env), source, t0, n0, ids);
  }
}
