/** The inviters of the migrated users: the second pass of Migrator.run in bin/migrate_agent_users.py. */
module AgentInviters {
  import opened Options
  import opened Seqs
  import opened AgentUsers
  import opened AgentMigration
  import opened AgentRuns

  // ---------- The image of the inviter graph ----------

  ghost predicate CreatedDistinct(entries: seq<Entry>) {
    forall i, j :: 0 <= i < j < |entries| ==> entries[i].created != entries[j].created
  }

  predicate NotCreated(entries: seq<Entry>, id: int) {
    forall i :: 0 <= i < |entries| ==> entries[i].created != Some(id)
  }

  /** Every new row points to the image of the inviter its user had; no other row changed. */
  ghost predicate Relinked(source: Table, t: Table, entries: seq<Entry>, oldToNew: map<int, int>, r: Table) {
    && r.Keys == t.Keys
    && (forall id <- t :: NotCreated(entries, id) ==> r[id] == t[id])
    && (forall i :: 0 <= i < |entries| ==> IsRelinked(source, t, entries[i], oldToNew, r))
  }

  predicate IsRelinked(source: Table, t: Table, e: Entry, oldToNew: map<int, int>, r: Table) {
    && IsUnlinked(source, t, e) && e.created.value in r
    && r[e.created.value] == t[e.created.value].(inviter := Image(oldToNew, source[e.oldID].inviter))
  }

  predicate IsUnlinked(source: Table, t: Table, e: Entry) {
    e.oldID in source && e.created.Some? && e.created.value in t && t[e.created.value].inviter == 0
  }

  /** The second pass, in any order of the entries. */
  lemma {:induction false} RelinkSets(source: Table, t: Table, entries: seq<Entry>, oldToNew: map<int, int>)
    requires CreatedDistinct(entries) && forall i :: 0 <= i < |entries| ==> IsUnlinked(source, t, entries[i])
    ensures Relinked(source, t, entries, oldToNew, Relink(source, t, entries, oldToNew))
  {
    hide Image;
    if entries != [] {
      hide Relinked, IsUnlinked;
      var init, e := entries[..|entries| - 1], entries[|entries| - 1];
      assert forall i :: 0 <= i < |init| ==> init[i] == entries[i];
      RelinkSets(source, t, init, oldToNew);
      assert IsUnlinked(source, t, e);
      RelinkLast(source, t, init, e, oldToNew, Relink(source, t, init, oldToNew));
      assert entries == init + [e];
      UnlinkedHas(source, t, e);
    }
  }

  lemma UnlinkedHas(source: Table, t: Table, e: Entry)
    requires IsUnlinked(source, t, e)
    ensures e.oldID in source && e.created.Some? && e.created.value in t
  {
  }

  lemma RelinkLast(source: Table, t: Table, entries: seq<Entry>, e: Entry, oldToNew: map<int, int>, q: Table)
    requires Relinked(source, t, entries, oldToNew, q) && IsUnlinked(source, t, e)
    requires forall i :: 0 <= i < |entries| ==> entries[i].created != e.created
    ensures e.created.value in q
    ensures var image := Image(oldToNew, source[e.oldID].inviter);
            Relinked(source, t, entries + [e], oldToNew,
                     if image != 0 then q[e.created.value := q[e.created.value].(inviter := image)] else q)
  {
    hide Image;
    assert NotCreated(entries, e.created.value);
    forall id | id in t && NotCreated(entries + [e], id) ensures NotCreated(entries, id) && Some(id) != e.created {
      assert (entries + [e])[|entries|] == e;
      assert forall i :: 0 <= i < |entries| ==> (entries + [e])[i] == entries[i];
    }
  }

  function Final(source: Table, p: Progress): Table {
    Relink(source, p.target, p.inserted, p.oldToNew)
  }

  /** The users of the inserted list. */
  function InsertedIds(p: Progress): set<int> {
    set i | 0 <= i < |p.inserted| :: p.inserted[i].oldID
  }

  /** What the migration leaves: the old rows as they were, and for every inserted user a copy whose inviter is the
      image of its inviter if that user was resolved, and 0 otherwise. */
  ghost predicate FollowsInviters(env: Env, source: Table, t0: Table, p: Progress, final: Table) {
    && t0.Keys <= final.Keys
    && (forall id <- t0 :: final[id] == t0[id])
    && (forall id <- final :: id in t0 || exists o <- InsertedIds(p) :: o in p.oldToNew && p.oldToNew[o] == id)
    && (forall o <- InsertedIds(p) ::
      InviterFollows(source, t0, p, final, o) && IsCopy(env, final[p.oldToNew[o]].(inviter := 0), source[o]))
  }

  predicate InviterFollows(source: Table, t0: Table, p: Progress, final: Table, oldID: int) {
    && oldID in source && oldID in p.oldToNew
    && var id := p.oldToNew[oldID];
       id > 0 && id in final && id !in t0 && final[id].inviter == Image(p.oldToNew, source[oldID].inviter)
  }

  lemma InvitersFollow(env: Env, source: Table, t0: Table, n0: int, ids: seq<int>)
    requires env.execute && InSource(source, ids) && NoRepeats(ids) && IdsBelow(t0, n0)
    ensures var p := PlaceAll(env, source, Start(t0, n0), ids); FollowsInviters(env, source, t0, p, Final(source, p))
  {
    hide Place, PlaceAll, Image, Relink, Entered, Grown, FollowsInviters, Final;
    NewRowsAreCopies(env, source, t0, n0, ids);
    TargetGrows(env, source, t0, n0, ids);
    var p := PlaceAll(env, source, Start(t0, n0), ids);
    FinalFollows(env, source, t0, n0, p, ids);
  }

  lemma EntryFollows(env: Env, source: Table, t0: Table, n0: int, p: Progress, ids: seq<int>, final: Table, i: nat)
    requires Entered(env, source, t0, n0, p, ids) && Grown(env, t0, n0, p) && IdsBelow(t0, n0)
    requires Relinked(source, p.target, p.inserted, p.oldToNew, final) && i < |p.inserted|
    ensures InviterFollows(source, t0, p, final, p.inserted[i].oldID)
    ensures IsCopy(env, final[p.oldToNew[p.inserted[i].oldID]].(inviter := 0), source[p.inserted[i].oldID])
  {
    hide Image, IsCopy;
    var e := p.inserted[i];
    assert IsEntry(env, source, p, e) && IsRelinked(source, p.target, e, p.oldToNew, final);
    var id := e.created.value;
    CopyHasNoInviter(env, p.target[id], source[e.oldID]);
    assert final[id].(inviter := 0) == p.target[id];
  }

  lemma EntriesUnlinked(env: Env, source: Table, t0: Table, n0: int, p: Progress, ids: seq<int>)
    requires Entered(env, source, t0, n0, p, ids)
    ensures CreatedDistinct(p.inserted) && forall i :: 0 <= i < |p.inserted| ==>
            IsUnlinked(source, p.target, p.inserted[i])
  {
    hide IsCopy;
    forall i | 0 <= i < |p.inserted| ensures IsUnlinked(source, p.target, p.inserted[i]) {
      assert IsEntry(env, source, p, p.inserted[i]);
      CopyHasNoInviter(env, p.target[p.inserted[i].created.value], source[p.inserted[i].oldID]);
    }
  }

  lemma OldRowsKept(env: Env, source: Table, t0: Table, n0: int, p: Progress, ids: seq<int>, final: Table)
    requires Entered(env, source, t0, n0, p, ids) && Grown(env, t0, n0, p) && IdsBelow(t0, n0)
    requires Relinked(source, p.target, p.inserted, p.oldToNew, final)
    ensures t0.Keys <= final.Keys && forall id <- t0 :: final[id] == t0[id]
    ensures forall id <- final :: id in t0 || exists o <- InsertedIds(p) :: o in p.oldToNew && p.oldToNew[o] == id
  {
    hide IsCopy, IsRelinked;
    forall id | id in t0 ensures final[id] == t0[id] {
      assert NotCreated(p.inserted, id);
    }
    forall id | id in final && id !in t0 ensures exists o <- InsertedIds(p) :: o in p.oldToNew && p.oldToNew[o] == id {
      var i :| 0 <= i < |p.inserted| && p.inserted[i].created == Some(id);
      assert IsEntry(env, source, p, p.inserted[i]);
      assert p.inserted[i].oldID in InsertedIds(p);
    }
  }

  lemma FinalFollows(env: Env, source: Table, t0: Table, n0: int, p: Progress, ids: seq<int>)
    requires Entered(env, source, t0, n0, p, ids) && Grown(env, t0, n0, p) && IdsBelow(t0, n0)
    ensures FollowsInviters(env, source, t0, p, Final(source, p))
  {
    hide Relink, IsCopy, Entered, Grown, IdsBelow, Relinked, IsUnlinked, CreatedDistinct, InviterFollows;
    EntriesUnlinked(env, source, t0, n0, p, ids);
    RelinkSets(source, p.target, p.inserted, p.oldToNew);
    var final := Final(source, p);
    OldRowsKept(env, source, t0, n0, p, ids, final);
    forall o | o in InsertedIds(p)
      ensures InviterFollows(source, t0, p, final, o) && o in p.oldToNew && p.oldToNew[o] in final && o in source
    {
      var i :| 0 <= i < |p.inserted| && p.inserted[i].oldID == o;
      EntryFollows(env, source, t0, n0, p, ids, final, i);
      FollowsMapped(source, t0, p, final, o);
    }
    forall o | o in InsertedIds(p) ensures IsCopy(env, final[p.oldToNew[o]].(inviter := 0), source[o]) {
      var i :| 0 <= i < |p.inserted| && p.inserted[i].oldID == o;
      EntryFollows(env, source, t0, n0, p, ids, final, i);
    }
  }

  lemma CopyHasNoInviter(env: Env, u: User, row: User)
    requires IsCopy(env, u, row)
    ensures u.inviter == 0
  {
  }

  lemma FollowsMapped(source: Table, t0: Table, p: Progress, final: Table, oldID: int)
    requires InviterFollows(source, t0, p, final, oldID)
    ensures oldID in source && oldID in p.oldToNew && p.oldToNew[oldID] > 0 && p.oldToNew[oldID] in final
    ensures final[p.oldToNew[oldID]].inviter == Image(p.oldToNew, source[oldID].inviter)
  {
  }
}
