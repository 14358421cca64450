/** Migration and cycles of inviters (bin/migrate_agent_users.py). */
module AgentCycles {
  import opened Seqs
  import opened Sets
  import opened AgentUsers
  import opened AgentMigration
  import opened AgentRuns
  import opened AgentInviters

  // ---------- Cycles ----------

  /** A set of users that following inviters never leaves. */
  predicate Trapped(t: Table, s: set<int>) {
    s != {} && s <= t.Keys && forall id <- s :: StaysIn(t, s, id)
  }

  predicate StaysIn(t: Table, s: set<int>, id: int) {
    id in t && t[id].inviter != 0 && t[id].inviter in s
  }

  ghost predicate AcyclicWithin(t: Table, ids: set<int>) {
    forall s: set<int> :: s <= ids ==> !Trapped(t, s)
  }

  ghost predicate Acyclic(t: Table) {
    AcyclicWithin(t, t.Keys)
  }

  /** Following inviters `n` times from `id` has come to an end. */
  predicate Ends(t: Table, id: int, n: nat)
    decreases n
  {
    id == 0 || id !in t || (n > 0 && Ends(t, t[id].inviter, n - 1))
  }

  lemma InviterInside(t: Table, s: set<int>, id: int)
    requires StaysIn(t, s, id)
    ensures id in t && t[id].inviter != 0 && t[id].inviter in s
  {
  }

  lemma {:induction false} TrappedNeverEnds(t: Table, s: set<int>, id: int, n: nat)
    requires Trapped(t, s) && id in s && id != 0
    ensures !Ends(t, id, n)
    decreases n
  {
    hide StaysIn;
    InviterInside(t, s, id);
    if n > 0 {
      TrappedNeverEnds(t, s, t[id].inviter, n - 1);
    }
  }

  lemma EndsOneLater(t: Table, id: int, n: nat)
    requires id in t && Ends(t, t[id].inviter, n)
    ensures Ends(t, id, n + 1)
  {
  }

  ghost predicate EndsEventually(t: Table, id: int) {
    exists n: nat :: Ends(t, id, n)
  }

  /** Without a trapped set, and only then, following inviters ends from everywhere. */
  lemma AcyclicMeansEnding(t: Table)
    requires 0 !in t
    ensures Acyclic(t) <==> forall id <- t :: EndsEventually(t, id)
  {
    hide Ends, StaysIn;
    if Acyclic(t) {
      var lost := set id | id in t && !EndsEventually(t, id);
      forall id | id in lost ensures StaysIn(t, lost, id) {
        LostInviter(t, id);
        StayInside(t, lost, id);
      }
      assert lost <= t.Keys && !Trapped(t, lost);
      forall id | id in t ensures EndsEventually(t, id) {
        assert id !in lost;
      }
    }
    if forall id <- t :: EndsEventually(t, id) {
      EndingIsAcyclic(t);
    }
  }

  lemma StayInside(t: Table, s: set<int>, id: int)
    requires id in t && t[id].inviter != 0 && t[id].inviter in s
    ensures StaysIn(t, s, id)
  {
  }

  lemma LostInviter(t: Table, id: int)
    requires id in t && !EndsEventually(t, id)
    ensures t[id].inviter != 0 && t[id].inviter in t && !EndsEventually(t, t[id].inviter)
  {
    hide Ends;
    if n: nat :| Ends(t, t[id].inviter, n) {
      EndsOneLater(t, id, n);
    }
    EndsAtOnce(t, t[id].inviter);
  }

  lemma EndingIsAcyclic(t: Table)
    requires 0 !in t && forall id <- t :: EndsEventually(t, id)
    ensures Acyclic(t)
  {
    hide Ends, StaysIn;
    forall s: set<int> | s <= t.Keys ensures !Trapped(t, s) {
      if s != {} {
        var id := Member(s);
        assert EndsEventually(t, id);
        var n: nat :| Ends(t, id, n);
        if Trapped(t, s) {
          TrappedNeverEnds(t, s, id, n);
        }
      }
    }
  }

  lemma EndsAtOnce(t: Table, id: int)
    requires !Ends(t, id, 0)
    ensures id != 0 && id in t
  {
  }

  // ---------- Migration keeps the graph free of cycles ----------

  /** No username occurs twice in the source. */
  predicate NamesApart(source: Table, ids: seq<int>)
    requires InSource(source, ids)
  {
    forall i, j :: 0 <= i < j < |ids| ==>
        source[ids[i]].username == "" || source[ids[i]].username != source[ids[j]].username
  }

  /** Whoever was not inserted is mapped to a row of the same username that was there before. */
  ghost predicate SameAreOld(source: Table, t0: Table, p: Progress) {
    forall o <- p.oldToNew :: o in InsertedIds(p) || IsOldNamesake(source, t0, o, p.oldToNew[o])
  }

  predicate IsOldNamesake(source: Table, t0: Table, oldID: int, id: int) {
    oldID in source && Matchable(t0, id) && t0[id].username == source[oldID].username
  }

  /** A row that a source user can be recognized as: the first of its username, with a contact. */
  predicate Matchable(t: Table, id: int) {
    && id in t && t[id].username != "" && IsLeast(Named(t, t[id].username), id)
    && (Strip(t[id].phone) != "" || Strip(t[id].email) != "")
  }

  lemma FoundIsOld(env: Env, source: Table, t0: Table, n0: int, p: Progress, ids: seq<int>, oldID: int)
    requires oldID in source && Entered(env, source, t0, n0, p, ids)
    requires forall o <- ids ::
             o in source && (source[o].username == "" || source[o].username != source[oldID].username)
    requires Classify(p.target, source[oldID]).SamePerson?
    requires Grown(env, t0, n0, p)
    ensures IsOldNamesake(source, t0, oldID, Classify(p.target, source[oldID]).id)
  {
    hide Strip;
    var id, name := Classify(p.target, source[oldID]).id, source[oldID].username;
    assert id in Named(p.target, name);
    forall other | other in Named(t0, name) ensures id <= other {
      assert p.target[other] == t0[other] && other in Named(p.target, name);
    }
  }

  lemma {:induction false} SamePersonsAreOld(env: Env, source: Table, t0: Table, n0: int, ids: seq<int>)
    requires env.execute && InSource(source, ids) && NoRepeats(ids) && IdsBelow(t0, n0) && NamesApart(source, ids)
    ensures SameAreOld(source, t0, PlaceAll(env, source, Start(t0, n0), ids))
  {
    hide Classify, Place;
    if ids != [] {
      hide SameAreOld, NamesApart;
      var init, last := ids[..|ids| - 1], ids[|ids| - 1];
      assert ids == init + [last];
      NamesApartPrefix(source, ids);
      SamePersonsAreOld(env, source, t0, n0, init);
      NewRowsAreCopies(env, source, t0, n0, init);
      TargetGrows(env, source, t0, n0, init);
      var p := PlaceAll(env, source, Start(t0, n0), init);
      NamesApartLast(source, ids);
      if Classify(p.target, source[last]).SamePerson? {
        FoundIsOld(env, source, t0, n0, p, init, last);
      }
      StaysOld(env, source, t0, p, last);
    }
  }

  lemma NamesApartPrefix(source: Table, ids: seq<int>)
    requires ids != [] && InSource(source, ids) && NamesApart(source, ids)
    ensures NamesApart(source, ids[..|ids| - 1])
  {
  }

  lemma NamesApartLast(source: Table, ids: seq<int>)
    requires ids != [] && InSource(source, ids) && NamesApart(source, ids)
    ensures forall o <- ids[..|ids| - 1] ::
            source[o].username == "" || source[o].username != source[ids[|ids| - 1]].username
  {
  }

  lemma StaysOld(env: Env, source: Table, t0: Table, p: Progress, oldID: int)
    requires env.execute && SameAreOld(source, t0, p) && oldID in source
    requires var c := Classify(p.target, source[oldID]); c.SamePerson? ==> IsOldNamesake(source, t0, oldID, c.id)
    ensures SameAreOld(source, t0, Place(env, p, oldID, source[oldID]))
  {
    hide Classify, Built, NewUser, IsOldNamesake;
    var row := source[oldID];
    BuiltKeeps(env, p, row);
    var q := Place(env, p, oldID, row);
    assert forall i :: 0 <= i < |p.inserted| ==> q.inserted[i] == p.inserted[i];
    assert InsertedIds(p) <= InsertedIds(q);
    if Classify(p.target, row) == Newcomer {
      assert q.inserted[|p.inserted|].oldID == oldID;
    }
  }

  /** The inserted users whose new rows are in the set. */
  function Sources(p: Progress, s: set<int>): set<int> {
    set o | o in InsertedIds(p) && o in p.oldToNew && p.oldToNew[o] in s
  }

  // ---------- Inviters that do not exist yet ----------

  /** Following inviters `n` times from `id` leads to `goal`. */
  predicate Reaches(t: Table, id: int, goal: int, n: nat)
    decreases n
  {
    if n == 0 then id == goal else id in t && Reaches(t, t[id].inviter, goal, n - 1)
  }

  /** Following inviters from `id` leads to an id that a new row can get. */
  ghost predicate Ahead(t: Table, next: int, id: int) {
    exists goal: int, n: nat :: goal >= next && Reaches(t, id, goal, n)
  }

  /** No row that can be recognized leads to an id that a new row can get. */
  ghost predicate Sealed(t: Table, next: int) {
    forall id <- t :: Matchable(t, id) ==> !Ahead(t, next, id)
  }

  lemma AheadOneLater(t: Table, next: int, id: int)
    requires id in t && (t[id].inviter >= next || Ahead(t, next, t[id].inviter))
    ensures Ahead(t, next, id)
  {
    if t[id].inviter >= next {
      assert Reaches(t, t[id].inviter, t[id].inviter, 0) && Reaches(t, id, t[id].inviter, 1);
    } else {
      var goal: int, n: nat :| goal >= next && Reaches(t, t[id].inviter, goal, n);
      assert Reaches(t, id, goal, n + 1);
    }
  }

  /** Inviters that exist, or existed once, do no harm. */
  lemma KnownInvitersAreSealed(t: Table, next: int)
    requires IdsBelow(t, next) && forall id <- t :: t[id].inviter < next
    ensures Sealed(t, next)
  {
    forall id, goal: int, n: nat | id in t && goal >= next ensures !Reaches(t, id, goal, n) {
      NeverAhead(t, next, id, goal, n);
    }
  }

  lemma {:induction false} NeverAhead(t: Table, next: int, id: int, goal: int, n: nat)
    requires IdsBelow(t, next) && (forall x <- t :: t[x].inviter < next) && id < next <= goal
    ensures !Reaches(t, id, goal, n)
    decreases n
  {
    if n > 0 && id in t {
      NeverAhead(t, next, t[id].inviter, goal, n - 1);
    }
  }

  // ---------- Where a trapped set of the result comes from ----------

  /** The old rows of the set from which no new row is reached. */
  ghost function Settled(t0: Table, n0: int, s: set<int>): set<int> {
    set id | id in s && id in t0 && !Ahead(t0, n0, id)
  }

  /** The result keeps the old rows, and its other rows have new ids. */
  ghost predicate Extends(t0: Table, n0: int, final: Table) {
    && (forall id <- t0 :: id in final && final[id] == t0[id])
    && (forall id <- final :: id in t0 || id >= n0)
  }

  lemma SettledIsTrapped(t0: Table, n0: int, final: Table, s: set<int>)
    requires Trapped(final, s) && Extends(t0, n0, final) && Settled(t0, n0, s) != {}
    ensures Trapped(t0, Settled(t0, n0, s))
  {
    hide StaysIn, Ahead;
    var settled := Settled(t0, n0, s);
    forall id | id in settled ensures StaysIn(t0, settled, id) {
      InviterInside(final, s, id);
      var inviter := t0[id].inviter;
      if inviter >= n0 || Ahead(t0, n0, inviter) {
        AheadOneLater(t0, n0, id);
      }
      StayInside(t0, settled, id);
    }
    assert settled <= t0.Keys;
  }

  lemma {:induction false} StaysWhileReaching(t0: Table, n0: int, final: Table, s: set<int>, id: int, goal: int, n: nat)
    requires Trapped(final, s) && Extends(t0, n0, final) && id in s && Reaches(t0, id, goal, n)
    ensures goal in s
    decreases n
  {
    hide StaysIn;
    if n > 0 {
      InviterInside(final, s, id);
      StaysWhileReaching(t0, n0, final, s, t0[id].inviter, goal, n - 1);
    }
  }

  lemma NewRowInside(t0: Table, n0: int, final: Table, s: set<int>) returns (id: int)
    requires Trapped(final, s) && Extends(t0, n0, final) && IdsBelow(t0, n0) && Settled(t0, n0, s) == {}
    ensures id in s && id !in t0
  {
    hide StaysIn;
    id := Member(s);
    if id in t0 {
      assert id !in Settled(t0, n0, s);
      var goal: int, n: nat :| goal >= n0 && Reaches(t0, id, goal, n);
      StaysWhileReaching(t0, n0, final, s, id, goal, n);
      id := goal;
    }
  }

  lemma InviterStaysTrapped(source: Table, t0: Table, p: Progress, final: Table, s: set<int>, o: int)
    requires InviterFollows(source, t0, p, final, o) && SameAreOld(source, t0, p) && Trapped(final, s)
    requires o in Sources(p, s) && forall id <- s :: !Matchable(t0, id)
    ensures StaysIn(source, Sources(p, s), o)
  {
    hide InsertedIds, StaysIn, Matchable;
    var inviter := source[o].inviter;
    InviterInside(final, s, p.oldToNew[o]);
    assert p.oldToNew[inviter] in s;
    StayInside(source, Sources(p, s), o);
  }

  lemma SourcesTrapped(env: Env, source: Table, t0: Table, p: Progress, final: Table, s: set<int>, some: int)
    requires FollowsInviters(env, source, t0, p, final) && SameAreOld(source, t0, p) && Trapped(final, s)
    requires some in s && some !in t0 && forall id <- s :: !Matchable(t0, id)
    ensures Trapped(source, Sources(p, s)) && Sources(p, s) <= InsertedIds(p)
  {
    hide IsCopy, InsertedIds, StaysIn, InviterFollows, SameAreOld, Matchable;
    assert some in final;
    var first :| first in InsertedIds(p) && first in p.oldToNew && p.oldToNew[first] == some;
    assert first in Sources(p, s);
    hide FollowsInviters;
    forall o | o in Sources(p, s) ensures o in source {
      InsertedFollows(env, source, t0, p, final, o);
      FollowsMapped(source, t0, p, final, o);
    }
    forall o | o in Sources(p, s) ensures StaysIn(source, Sources(p, s), o) {
      InsertedFollows(env, source, t0, p, final, o);
      FollowsMapped(source, t0, p, final, o);
      InviterStaysTrapped(source, t0, p, final, s, o);
    }
    assert Sources(p, s) <= source.Keys && Sources(p, s) != {};
  }

  lemma InsertedFollows(env: Env, source: Table, t0: Table, p: Progress, final: Table, oldID: int)
    requires FollowsInviters(env, source, t0, p, final) && oldID in InsertedIds(p)
    ensures InviterFollows(source, t0, p, final, oldID)
  {
  }

  /** A trapped set of the result holds a trapped set of old rows, or stems from a trapped set of inserted users. */
  lemma TrappedComesFrom(env: Env, source: Table, t0: Table, n0: int, p: Progress, final: Table, s: set<int>)
    requires FollowsInviters(env, source, t0, p, final) && SameAreOld(source, t0, p) && Trapped(final, s)
    requires Extends(t0, n0, final) && IdsBelow(t0, n0) && Sealed(t0, n0)
    ensures Trapped(t0, Settled(t0, n0, s)) || (Trapped(source, Sources(p, s)) && Sources(p, s) <= InsertedIds(p))
  {
    hide Trapped, SameAreOld, Ahead, Matchable, FollowsInviters;
    if Settled(t0, n0, s) != {} {
      SettledIsTrapped(t0, n0, final, s);
    } else {
      var some := NewRowInside(t0, n0, final, s);
      forall id | id in s ensures !Matchable(t0, id) {
        if id in t0 {
          assert id !in Settled(t0, n0, s);
        } else {
          UnknownNotMatchable(t0, id);
        }
      }
      SourcesTrapped(env, source, t0, p, final, s, some);
    }
  }

  lemma UnknownNotMatchable(t: Table, id: int)
    requires id !in t
    ensures !Matchable(t, id)
  {
  }

  function Copies(oldToNew: map<int, int>, s: set<int>): set<int>
    requires s <= oldToNew.Keys
  {
    set o | o in s :: oldToNew[o]
  }

  /** A trapped set of inserted users stays trapped. */
  lemma TrappedIsCopied(env: Env, source: Table, t0: Table, p: Progress, final: Table, s: set<int>)
    requires FollowsInviters(env, source, t0, p, final) && Trapped(source, s) && s <= InsertedIds(p)
    ensures s <= p.oldToNew.Keys && Trapped(final, Copies(p.oldToNew, s))
  {
    hide IsCopy, InsertedIds, StaysIn, InviterFollows;
    assert forall o <- s :: InviterFollows(source, t0, p, final, o);
    forall o | o in s ensures o in p.oldToNew {
      assert o in p.oldToNew by {
        FollowsMapped(source, t0, p, final, o);
      }
    }
    var copies := Copies(p.oldToNew, s);
    var some := Member(s);
    assert p.oldToNew[some] in copies;
    forall id | id in copies ensures id in final {
      var o :| o in s && p.oldToNew[o] == id;
      FollowsMapped(source, t0, p, final, o);
    }
    forall id | id in copies ensures StaysIn(final, copies, id) {
      var o :| o in s && p.oldToNew[o] == id;
      InviterInside(source, s, o);
      FollowsMapped(source, t0, p, final, o);
      FollowsMapped(source, t0, p, final, source[o].inviter);
      StayInside(final, copies, id);
    }
    assert copies <= final.Keys && copies != {};
  }

  lemma FinalExtends(env: Env, source: Table, t0: Table, n0: int, ids: seq<int>)
    requires env.execute && InSource(source, ids) && NoRepeats(ids) && IdsBelow(t0, n0)
    ensures Extends(t0, n0, Final(source, PlaceAll(env, source, Start(t0, n0), ids)))
  {
    hide Place, PlaceAll, FollowsInviters, Relinked, IsUnlinked, CreatedDistinct, Entered, Relink;
    NewRowsAreCopies(env, source, t0, n0, ids);
    TargetGrows(env, source, t0, n0, ids);
    var p := PlaceAll(env, source, Start(t0, n0), ids);
    EntriesUnlinked(env, source, t0, n0, p, ids);
    RelinkSets(source, p.target, p.inserted, p.oldToNew);
    OldRowsKept(env, source, t0, n0, p, ids, Final(source, p));
    RelinkedKeys(source, p.target, p.inserted, p.oldToNew, Final(source, p));
  }

  lemma RelinkedKeys(source: Table, t: Table, entries: seq<Entry>, oldToNew: map<int, int>, r: Table)
    requires Relinked(source, t, entries, oldToNew, r)
    ensures r.Keys == t.Keys
  {
  }

  /** With unique usernames in the source and a sealed target, the migrated target is free of cycles exactly when the
      target was and the source is, as far as its inserted users are concerned. */
  lemma AcyclicExactly(env: Env, source: Table, t0: Table, n0: int, ids: seq<int>)
    requires env.execute && InSource(source, ids) && NoRepeats(ids) && IdsBelow(t0, n0)
    requires NamesApart(source, ids) && Sealed(t0, n0)
    ensures var p := PlaceAll(env, source, Start(t0, n0), ids);
            Acyclic(Final(source, p)) <==> Acyclic(t0) && AcyclicWithin(source, InsertedIds(p))
  {
    hide Place, PlaceAll, Final, FollowsInviters, SameAreOld, Sealed, Trapped, NamesApart, Extends, Settled;
    InvitersFollow(env, source, t0, n0, ids);
    FinalExtends(env, source, t0, n0, ids);
    SamePersonsAreOld(env, source, t0, n0, ids);
    var p := PlaceAll(env, source, Start(t0, n0), ids);
    var final := Final(source, p);
    if Acyclic(final) {
      forall s: set<int> | s <= t0.Keys && Trapped(t0, s) ensures false {
        TrappedIsKept(env, source, t0, p, final, s);
      }
      forall s: set<int> | s <= InsertedIds(p) && Trapped(source, s) ensures false {
        TrappedIsCopied(env, source, t0, p, final, s);
        TrappedInside(final, Copies(p.oldToNew, s));
      }
    }
    if Acyclic(t0) && AcyclicWithin(source, InsertedIds(p)) {
      forall s: set<int> | Trapped(final, s) ensures false {
        TrappedComesFrom(env, source, t0, n0, p, final, s);
        SettledInside(t0, n0, s);
      }
    }
  }

  lemma SettledInside(t0: Table, n0: int, s: set<int>)
    ensures Settled(t0, n0, s) <= t0.Keys
  {
  }

  lemma TrappedInside(t: Table, s: set<int>)
    requires Trapped(t, s)
    ensures s <= t.Keys
  {
  }

  lemma TrappedIsKept(env: Env, source: Table, t0: Table, p: Progress, final: Table, s: set<int>)
    requires FollowsInviters(env, source, t0, p, final) && Trapped(t0, s)
    ensures Trapped(final, s) && s <= final.Keys
  {
    hide IsCopy, InsertedIds, StaysIn;
    forall id | id in s ensures StaysIn(final, s, id) && id in final {
      InviterInside(t0, s, id);
      StayInside(final, s, id);
    }
  }

  /** Two graphs without cycles give a graph without cycles. */
  lemma AcyclicIsKept(env: Env, source: Table, t0: Table, n0: int, ids: seq<int>)
    requires env.execute && InSource(source, ids) && NoRepeats(ids) && IdsBelow(t0, n0)
    requires NamesApart(source, ids) && Sealed(t0, n0) && Acyclic(t0) && Acyclic(source)
    ensures Acyclic(Final(source, PlaceAll(env, source, Start(t0, n0), ids)))
  {
    hide Place, PlaceAll, Final, Sealed, NamesApart, StaysIn;
    AcyclicExactly(env, source, t0, n0, ids);
  }
}
