/** Moving the commission relations between migrated users: Migrator.migrate_relations in bin/migrate_agent_users.py. */
module AgentRelations {
  import opened Options
  import opened Seqs
  import opened AgentUsers
  import opened AgentMigration
  import opened AgentRuns
  import opened AgentInviters
  import opened AgentCycles

  /** `earned` stands for the accumulated amounts, `terms` for the columns that are copied as they are. */
  datatype Relation = Relation(inviter: int, invitee: int, createdAt: int, updatedAt: int, earned: int, terms: string)

  datatype Tally = Tally(relations: seq<Relation>, migrated: nat, skipped: nat)

  /** The relations of which both sides were resolved. */
  function Candidates(relations: seq<Relation>, resolved: set<int>): seq<Relation> {
    if relations == [] then [] else
      var rest, last := Candidates(relations[..|relations| - 1], resolved), relations[|relations| - 1];
      if last.inviter in resolved && last.invitee in resolved then rest + [last] else rest
  }

  /** The new id of a user, or 0. */
  function Mapped(oldToNew: map<int, int>, id: int): int {
    if id in oldToNew then oldToNew[id] else 0
  }

  function HasPair(relations: seq<Relation>, inviter: int, invitee: int): bool {
    exists i :: 0 <= i < |relations| && relations[i].inviter == inviter && relations[i].invitee == invitee
  }

  function Moved(env: Env, oldToNew: map<int, int>, rel: Relation): Relation {
    Relation(
      Mapped(oldToNew, rel.inviter), Mapped(oldToNew, rel.invitee),
      if rel.createdAt != 0 then rel.createdAt else env.now, env.now, 0, rel.terms)
  }

  function MoveOne(env: Env, oldToNew: map<int, int>, t: Tally, rel: Relation): Tally {
    var moved := Moved(env, oldToNew, rel);
    if !env.execute then t.(migrated := t.migrated + 1)
    else if moved.inviter == 0 || moved.invitee == 0 then t
    else if HasPair(t.relations, moved.inviter, moved.invitee) then t.(skipped := t.skipped + 1)
    else t.(relations := t.relations + [moved], migrated := t.migrated + 1)
  }

  function MoveAll(env: Env, oldToNew: map<int, int>, t: Tally, rels: seq<Relation>): Tally {
    if rels == [] then t else MoveOne(env, oldToNew, MoveAll(env, oldToNew, t, rels[..|rels| - 1]), rels[|rels| - 1])
  }

  // ---------- What moving promises ----------

  predicate UniquePairs(relations: seq<Relation>) {
    forall i, j :: 0 <= i < j < |relations| ==>
      relations[i].inviter != relations[j].inviter || relations[i].invitee != relations[j].invitee
  }

  /** No pair of users gets a second relation, and no relation of the target is touched. */
  lemma {:induction false} PairsStayUnique(env: Env, oldToNew: map<int, int>, t: Tally, rels: seq<Relation>)
    ensures var r := MoveAll(env, oldToNew, t, rels);
            t.relations <= r.relations && (UniquePairs(t.relations) ==> UniquePairs(r.relations))
  {
    if rels != [] {
      PairsStayUnique(env, oldToNew, t, rels[..|rels| - 1]);
    }
  }

  predicate AllMapped(oldToNew: map<int, int>, rels: seq<Relation>) {
    forall i :: 0 <= i < |rels| ==> Mapped(oldToNew, rels[i].inviter) != 0 && Mapped(oldToNew, rels[i].invitee) != 0
  }

  /** The preview counts every candidate; the real run moves or skips every candidate. */
  lemma {:induction false} CountsAddUp(env: Env, oldToNew: map<int, int>, t: Tally, rels: seq<Relation>)
    requires env.execute ==> AllMapped(oldToNew, rels)
    ensures var r := MoveAll(env, oldToNew, t, rels);
            && r.migrated + r.skipped == t.migrated + t.skipped + |rels|
            && (!env.execute ==> r.skipped == t.skipped && r.relations == t.relations)
            && |r.relations| == |t.relations| + (if env.execute then r.migrated - t.migrated else 0)
  {
    hide HasPair;
    if rels != [] {
      CountsAddUp(env, oldToNew, t, rels[..|rels| - 1]);
    }
  }

  /** Afterwards the target holds the image of every candidate. */
  lemma {:induction false} ImagesArePresent(env: Env, oldToNew: map<int, int>, t: Tally, rels: seq<Relation>, i: nat)
    requires env.execute && AllMapped(oldToNew, rels) && i < |rels|
    ensures HasPair(MoveAll(env, oldToNew, t, rels).relations, Mapped(oldToNew, rels[i].inviter),
            Mapped(oldToNew, rels[i].invitee))
  {
    hide Mapped;
    var init, last := rels[..|rels| - 1], rels[|rels| - 1];
    var q, r := MoveAll(env, oldToNew, t, init).relations, MoveAll(env, oldToNew, t, rels).relations;
    assert q <= r;
    if i < |init| {
      hide MoveOne;
      assert init[i] == rels[i] && forall k :: 0 <= k < |init| ==> init[k] == rels[k];
      ImagesArePresent(env, oldToNew, t, init, i);
      PairStays(q, r, Mapped(oldToNew, init[i].inviter), Mapped(oldToNew, init[i].invitee));
    } else if HasPair(q, Mapped(oldToNew, last.inviter), Mapped(oldToNew, last.invitee)) {
      PairStays(q, r, Mapped(oldToNew, last.inviter), Mapped(oldToNew, last.invitee));
    } else {
      assert r[|q|] == Moved(env, oldToNew, last);
    }
  }

  /** A new relation links the images of a candidate's two users, keeps the candidate's terms and date, and has earned
      nothing. */
  ghost predicate IsImage(env: Env, oldToNew: map<int, int>, rel: Relation, moved: Relation) {
    && rel.inviter in oldToNew && moved.inviter == oldToNew[rel.inviter] != 0
    && rel.invitee in oldToNew && moved.invitee == oldToNew[rel.invitee] != 0
    && moved.earned == 0 && moved.terms == rel.terms && moved.updatedAt == env.now
    && (if rel.createdAt != 0 then moved.createdAt == rel.createdAt else moved.createdAt == env.now)
  }

  /** Nothing new but images of candidates. */
  lemma {:induction false} OnlyImagesAreNew(env: Env, oldToNew: map<int, int>, t: Tally, rels: seq<Relation>, k: nat)
    requires |t.relations| <= k < |MoveAll(env, oldToNew, t, rels).relations|
    ensures exists i :: 0 <= i < |rels| &&
              IsImage(env, oldToNew, rels[i], MoveAll(env, oldToNew, t, rels).relations[k])
  {
    hide HasPair;
    var init, last := rels[..|rels| - 1], rels[|rels| - 1];
    var q := MoveAll(env, oldToNew, t, init).relations;
    if k < |q| {
      OnlyImagesAreNew(env, oldToNew, t, init, k);
      var i :| 0 <= i < |init| && IsImage(env, oldToNew, init[i], q[k]);
      assert rels[i] == init[i];
    } else {
      assert IsImage(env, oldToNew, rels[|rels| - 1], Moved(env, oldToNew, last));
    }
  }

  lemma PairStays(q: seq<Relation>, r: seq<Relation>, inviter: int, invitee: int)
    requires q <= r && HasPair(q, inviter, invitee)
    ensures HasPair(r, inviter, invitee)
  {
    var i :| 0 <= i < |q| && q[i].inviter == inviter && q[i].invitee == invitee;
    assert r[i] == q[i];
  }

  predicate Injective(m: map<int, int>) {
    forall a <- m, b <- m :: a != b ==> m[a] != m[b]
  }

  /** How many candidates have an image that the target held before. */
  function AlreadyThere(oldToNew: map<int, int>, relations: seq<Relation>, rels: seq<Relation>): nat {
    if rels == [] then 0 else
      var last := rels[|rels| - 1];
      AlreadyThere(oldToNew, relations, rels[..|rels| - 1])
      + (if HasPair(relations, Mapped(oldToNew, last.inviter), Mapped(oldToNew, last.invitee)) then 1 else 0)
  }

  /** When users keep apart and the source has no pair twice, exactly the relations that the target held before are
      skipped. */
  lemma {:induction false} SkipsWhatWasThere(env: Env, oldToNew: map<int, int>, relations: seq<Relation>,
      rels: seq<Relation>)
    requires env.execute && AllMapped(oldToNew, rels) && Injective(oldToNew) && UniquePairs(rels)
    ensures MoveAll(env, oldToNew, Tally(relations, 0, 0), rels).skipped == AlreadyThere(oldToNew, relations, rels)
  {
    if rels != [] {
      var init, last := rels[..|rels| - 1], rels[|rels| - 1];
      assert forall i :: 0 <= i < |init| ==> init[i] == rels[i];
      assert rels == init + [last];
      SkipsWhatWasThere(env, oldToNew, relations, init);
      var t := Tally(relations, 0, 0);
      var q := MoveAll(env, oldToNew, t, init).relations;
      var inviter, invitee := Mapped(oldToNew, last.inviter), Mapped(oldToNew, last.invitee);
      PairsStayUnique(env, oldToNew, t, init);
      if HasPair(relations, inviter, invitee) {
        PairStays(relations, q, inviter, invitee);
      } else {
        PairIsNew(env, oldToNew, relations, init, last);
      }
    }
  }

  lemma PairIsNew(env: Env, oldToNew: map<int, int>, relations: seq<Relation>, rels: seq<Relation>, last: Relation)
    requires Injective(oldToNew) && UniquePairs(rels + [last]) && AllMapped(oldToNew, rels + [last])
    requires !HasPair(relations, Mapped(oldToNew, last.inviter), Mapped(oldToNew, last.invitee))
    ensures !HasPair(MoveAll(env, oldToNew, Tally(relations, 0, 0), rels).relations, Mapped(oldToNew, last.inviter),
            Mapped(oldToNew, last.invitee))
  {
    var t := Tally(relations, 0, 0);
    var q := MoveAll(env, oldToNew, t, rels).relations;
    PairsStayUnique(env, oldToNew, t, rels);
    hide MoveAll;
    forall k | 0 <= k < |q|
      ensures q[k].inviter != Mapped(oldToNew, last.inviter) || q[k].invitee != Mapped(oldToNew, last.invitee)
    {
      if k < |relations| {
        assert q[k] == relations[k];
      } else {
        OnlyImagesAreNew(env, oldToNew, t, rels, k);
        var i :| 0 <= i < |rels| && IsImage(env, oldToNew, rels[i], q[k]);
        assert (rels + [last])[i] == rels[i] && (rels + [last])[|rels|] == last;
      }
    }
  }

  lemma InsertedAt(env: Env, source: Table, t0: Table, n0: int, p: Progress, ids: seq<int>, o: int) returns (i: nat)
    requires Entered(env, source, t0, n0, p, ids) && o in InsertedIds(p)
    ensures i < |p.inserted| && p.inserted[i].oldID == o && o in p.oldToNew
            && p.inserted[i].created == Some(p.oldToNew[o]) && n0 <= p.oldToNew[o]
  {
    hide IsCopy;
    i :| 0 <= i < |p.inserted| && p.inserted[i].oldID == o;
    assert IsEntry(env, source, p, p.inserted[i]);
  }

  lemma NamesDiffer(source: Table, ids: seq<int>, a: int, b: int)
    requires InSource(source, ids) && NamesApart(source, ids) && a in ids && b in ids && a != b
             && source[a].username != ""
    ensures source[a].username != source[b].username
  {
    var i :| 0 <= i < |ids| && ids[i] == a;
    var j :| 0 <= j < |ids| && ids[j] == b;
    assert i < j || j < i;
  }

  lemma TwoUsersApart(env: Env, source: Table, t0: Table, n0: int, p: Progress, ids: seq<int>, a: int, b: int)
    requires Entered(env, source, t0, n0, p, ids) && SameAreOld(source, t0, p) && IdsBelow(t0, n0)
    requires InSource(source, ids) && NamesApart(source, ids)
    requires a in p.oldToNew && b in p.oldToNew && a != b
    ensures p.oldToNew[a] != p.oldToNew[b]
  {
    hide IsCopy, InsertedIds, NamesApart, InSource;
    assert a in ids && b in ids;
    if a in InsertedIds(p) {
      var i := InsertedAt(env, source, t0, n0, p, ids, a);
      if b in InsertedIds(p) {
        var j := InsertedAt(env, source, t0, n0, p, ids, b);
        assert i < j || j < i;
      }
    } else if b in InsertedIds(p) {
      var j := InsertedAt(env, source, t0, n0, p, ids, b);
    } else {
      NamesDiffer(source, ids, a, b);
    }
  }

  /** With unique usernames no two users are mapped to the same row. */
  lemma UsersKeepApart(env: Env, source: Table, t0: Table, n0: int, ids: seq<int>)
    requires env.execute && InSource(source, ids) && NoRepeats(ids) && IdsBelow(t0, n0) && NamesApart(source, ids)
    ensures Injective(PlaceAll(env, source, Start(t0, n0), ids).oldToNew)
  {
    hide PlaceAll, NamesApart, Entered, SameAreOld;
    NewRowsAreCopies(env, source, t0, n0, ids);
    SamePersonsAreOld(env, source, t0, n0, ids);
    var p := PlaceAll(env, source, Start(t0, n0), ids);
    forall a, b | a in p.oldToNew && b in p.oldToNew && a != b ensures p.oldToNew[a] != p.oldToNew[b] {
      TwoUsersApart(env, source, t0, n0, p, ids, a, b);
    }
  }

  lemma {:induction false} CandidatesResolved(relations: seq<Relation>, resolved: set<int>)
    ensures forall i :: 0 <= i < |Candidates(relations, resolved)| ==>
      Candidates(relations, resolved)[i].inviter in resolved && Candidates(relations, resolved)[i].invitee in resolved
  {
    if relations != [] {
      CandidatesResolved(relations[..|relations| - 1], resolved);
    }
  }

  /** In the real run every candidate has two new ids. */
  lemma CandidatesAreMapped(env: Env, source: Table, t0: Table, n0: int, ids: seq<int>, relations: seq<Relation>)
    requires env.execute && InSource(source, ids) && NoRepeats(ids) && IdsBelow(t0, n0)
    ensures var p := PlaceAll(env, source, Start(t0, n0), ids); AllMapped(p.oldToNew, Candidates(relations, p.resolved))
  {
    hide PlaceAll, IsEntry, Candidates;
    NewRowsAreCopies(env, source, t0, n0, ids);
    TargetGrows(env, source, t0, n0, ids);
    CandidatesResolved(relations, PlaceAll(env, source, Start(t0, n0), ids).resolved);
  }

  /** The preview announces as many relations as the real run moves or finds already there. */
  lemma PreviewCountsRelations(
    env: Env, trial: Env, source: Table, t0: Table, n0: int, ids: seq<int>, relations: seq<Relation>,
    targetRelations: seq<Relation>)
    requires InSource(source, ids) && NoRepeats(ids) && IdsBelow(t0, n0) && NoSurprise(source, t0, ids)
    ensures var d := PlaceAll(Preview(env, trial), source, Start(t0, n0), ids);
            var e := PlaceAll(Real(env), source, Start(t0, n0), ids);
            var before := Tally(targetRelations, 0, 0);
            var announced := MoveAll(Preview(env, trial), d.oldToNew, before, Candidates(relations, d.resolved));
            var done := MoveAll(Real(env), e.oldToNew, before, Candidates(relations, e.resolved));
            announced.migrated == done.migrated + done.skipped && announced.relations == targetRelations
  {
    hide PlaceAll, NoSurprise, Candidates, AllMapped;
    var d := PlaceAll(Preview(env, trial), source, Start(t0, n0), ids);
    var e := PlaceAll(Real(env), source, Start(t0, n0), ids);
    var before := Tally(targetRelations, 0, 0);
    PreviewPredicts(env, trial, source, t0, n0, ids);
    CandidatesAreMapped(Real(env), source, t0, n0, ids, relations);
    CountsAddUp(Preview(env, trial), d.oldToNew, before, Candidates(relations, d.resolved));
    CountsAddUp(Real(env), e.oldToNew, before, Candidates(relations, e.resolved));
  }
}
