/** What placing the users promises: every user lands in one list, the preview predicts the real run, nothing unique is
    duplicated (bin/migrate_agent_users.py). */
module AgentRuns {
  import opened Options
  import opened Seqs
  import opened Sets
  import opened AgentUsers
  import opened AgentMigration

  predicate InSource(source: Table, ids: seq<int>) {
    forall i :: 0 <= i < |ids| ==> ids[i] in source
  }

  // ---------- One list for each user ----------

  function OldIds(entries: seq<Entry>): seq<int> {
    if entries == [] then [] else OldIds(entries[..|entries| - 1]) + [entries[|entries| - 1].oldID]
  }

  ghost function Placed(p: Progress): multiset<int> {
    multiset(OldIds(p.inserted)) + multiset(p.same) + multiset(p.manual) + multiset(p.taken)
  }

  lemma BuiltKeeps(env: Env, p: Progress, row: User)
    ensures var q := Built(env, p, row);
            q == p.(affCodes := q.affCodes, claimed := q.claimed, dropped := q.dropped)
    ensures p.claimed <= Built(env, p, row).claimed && p.affCodes <= Built(env, p, row).affCodes
  {
    hide AffCode, BoundValue;
  }

  lemma InsertedGrows(entries: seq<Entry>, e: Entry)
    ensures OldIds(entries + [e]) == OldIds(entries) + [e.oldID]
  {
    assert (entries + [e])[..|entries|] == entries;
  }

  /** The list that a class puts a user in. */
  function ListFor(c: Class): nat {
    match c
    case Newcomer => 0
    case SamePerson(_) => 1
    case Manual => 2
    case ContactTaken => 3
  }

  function NthList(p: Progress, n: nat): seq<int> {
    if n == 0 then OldIds(p.inserted) else if n == 1 then p.same else if n == 2 then p.manual else p.taken
  }

  lemma PlaceAppends(env: Env, p: Progress, oldID: int, row: User, n: nat)
    requires n < 4
    ensures NthList(Place(env, p, oldID, row), n) ==
            if ListFor(Classify(p.target, row)) == n then NthList(p, n) + [oldID] else NthList(p, n)
  {
    hide Classify, Built, NewUser, OldIds;
    BuiltKeeps(env, p, row);
    InsertedGrows(p.inserted, Entry(oldID, None));
    InsertedGrows(p.inserted, Entry(oldID, Some(p.nextID)));
  }

  lemma ListForBelow(c: Class)
    ensures ListFor(c) < 4
  {
  }

  lemma PlaceOne(env: Env, p: Progress, oldID: int, row: User)
    ensures Placed(Place(env, p, oldID, row)) == Placed(p) + multiset{oldID}
  {
    hide Classify, Place, OldIds, ListFor;
    ListForBelow(Classify(p.target, row));
    PlaceAppends(env, p, oldID, row, 0);
    PlaceAppends(env, p, oldID, row, 1);
    PlaceAppends(env, p, oldID, row, 2);
    PlaceAppends(env, p, oldID, row, 3);
  }

  /** Every user lands in exactly one of the four lists, once. */
  lemma {:induction false} ListsPartition(env: Env, source: Table, p: Progress, ids: seq<int>)
    requires InSource(source, ids)
    ensures Placed(PlaceAll(env, source, p, ids)) == Placed(p) + multiset(ids)
  {
    hide Place, Placed;
    if ids != [] {
      var init, last := ids[..|ids| - 1], ids[|ids| - 1];
      assert ids == init + [last];
      ListsPartition(env, source, p, init);
      PlaceOne(env, PlaceAll(env, source, p, init), last, source[last]);
    }
  }

  // ---------- The target only grows ----------

  /** What both modes keep: old rows stay as they are, new rows lie at new ids. */
  ghost predicate Grown(env: Env, t0: Table, n0: int, p: Progress) {
    && n0 <= p.nextID
    && t0.Keys <= p.target.Keys
    && (forall id <- t0 :: p.target[id] == t0[id])
    && (forall id <- p.target :: id in t0 || n0 <= id < p.nextID)
    && (!env.execute ==> p.target == t0 && p.nextID == n0)
  }

  predicate IdsBelow(t: Table, n: int) {
    n > 0 && forall id <- t :: 0 < id < n
  }

  lemma GrowOne(env: Env, t0: Table, n0: int, p: Progress, oldID: int, row: User)
    requires IdsBelow(t0, n0) && Grown(env, t0, n0, p)
    ensures Grown(env, t0, n0, Place(env, p, oldID, row))
  {
    hide Classify, NewUser, Built;
    BuiltKeeps(env, p, row);
  }

  lemma {:induction false} TargetGrows(env: Env, source: Table, t0: Table, n0: int, ids: seq<int>)
    requires InSource(source, ids) && IdsBelow(t0, n0)
    ensures Grown(env, t0, n0, PlaceAll(env, source, Start(t0, n0), ids))
  {
    hide Place;
    if ids != [] {
      hide Grown;
      var init, last := ids[..|ids| - 1], ids[|ids| - 1];
      TargetGrows(env, source, t0, n0, init);
      GrowOne(env, t0, n0, PlaceAll(env, source, Start(t0, n0), init), last, source[last]);
    }
  }

  // ---------- New rows are copies ----------

  /** A new row copies its source row, but for what the migration resets or resolves. */
  predicate IsCopy(env: Env, u: User, row: User) {
    u == row.(
      inviter := 0, isDeleted := false, updatedAt := env.now, amount := 0, token := None, affCode := u.affCode,
      bindings := u.bindings)
  }

  /** The entry with this source id, this new id and this row. */
  ghost predicate IsEntry(env: Env, source: Table, p: Progress, e: Entry) {
    && e.oldID in source && e.oldID in p.oldToNew
    && e.created == Some(p.oldToNew[e.oldID])
    && p.oldToNew[e.oldID] in p.target && IsCopy(env, p.target[p.oldToNew[e.oldID]], source[e.oldID])
  }

  ghost predicate Entered(env: Env, source: Table, t0: Table, n0: int, p: Progress, ids: seq<int>) {
    && (forall i :: 0 <= i < |p.inserted| ==>
      IsEntry(env, source, p, p.inserted[i]) && p.inserted[i].oldID in ids && n0 <= p.inserted[i].created.value)
    && (forall i, j :: 0 <= i < j < |p.inserted| ==>
      p.inserted[i].oldID != p.inserted[j].oldID && p.inserted[i].created != p.inserted[j].created)
    && (forall id <- p.target :: id in t0 || exists i :: 0 <= i < |p.inserted| && p.inserted[i].created == Some(id))
    && (forall o <- p.oldToNew :: o in ids && p.oldToNew[o] in p.target)
    && p.oldToNew.Keys == p.resolved
  }

  lemma EnterNewcomer(env: Env, source: Table, t0: Table, n0: int, p: Progress, q: Progress, ids: seq<int>, oldID: int,
      u: User)
    requires oldID in source && oldID !in ids && IsCopy(env, u, source[oldID])
    requires Grown(env, t0, n0, p) && IdsBelow(t0, n0) && Entered(env, source, t0, n0, p, ids)
    requires q.target == p.target[p.nextID := u] && q.oldToNew == p.oldToNew[oldID := p.nextID]
    requires q.inserted == p.inserted + [Entry(oldID, Some(p.nextID))] && q.resolved == p.resolved + {oldID}
    ensures Entered(env, source, t0, n0, q, ids + [oldID])
  {
    hide IsCopy;
    assert forall o :: o in ids + [oldID] <==> o in ids || o == oldID;
    assert p.nextID !in p.target;
    assert forall i :: 0 <= i < |p.inserted| ==>
           q.inserted[i] == p.inserted[i] && p.inserted[i].created.value in p.target;
    assert IsEntry(env, source, q, Entry(oldID, Some(p.nextID)));
    forall id | id in q.target
      ensures id in t0 || exists i :: 0 <= i < |q.inserted| && q.inserted[i].created == Some(id)
    {
      if id == p.nextID {
        assert q.inserted[|p.inserted|].created == Some(id);
      } else if id !in t0 {
        var i :| 0 <= i < |p.inserted| && p.inserted[i].created == Some(id);
        assert q.inserted[i] == p.inserted[i];
      }
    }
  }

  lemma EnterKnown(env: Env, source: Table, t0: Table, n0: int, p: Progress, q: Progress, ids: seq<int>, oldID: int)
    requires oldID !in ids && Entered(env, source, t0, n0, p, ids)
    requires q.target == p.target && q.inserted == p.inserted
    requires (q.oldToNew == p.oldToNew && q.resolved == p.resolved)
          || (exists id <- p.target :: q.oldToNew == p.oldToNew[oldID := id] && q.resolved == p.resolved + {oldID})
    ensures Entered(env, source, t0, n0, q, ids + [oldID])
  {
    hide IsCopy;
    assert forall o :: o in ids + [oldID] <==> o in ids || o == oldID;
    forall i | 0 <= i < |p.inserted| ensures IsEntry(env, source, q, p.inserted[i]) {
      assert IsEntry(env, source, p, p.inserted[i]);
    }
  }

  lemma EnterOne(env: Env, source: Table, t0: Table, n0: int, p: Progress, ids: seq<int>, oldID: int)
    requires env.execute && oldID in source && oldID !in ids
    requires Grown(env, t0, n0, p) && IdsBelow(t0, n0) && Entered(env, source, t0, n0, p, ids)
    ensures Entered(env, source, t0, n0, Place(env, p, oldID, source[oldID]), ids + [oldID])
  {
    hide Built, NewlyClaimed, NewlyDropped, AffCode, BoundValue, Entered, Grown, Classify;
    var row := source[oldID];
    BuiltKeeps(env, p, row);
    var q := Place(env, p, oldID, row);
    if Classify(p.target, row) == Newcomer {
      EnterNewcomer(env, source, t0, n0, p, q, ids, oldID, NewUser(env, p, row));
    } else {
      KnownIsInTarget(p.target, row);
      EnterKnown(env, source, t0, n0, p, q, ids, oldID);
    }
  }

  lemma KnownIsInTarget(target: Table, row: User)
    ensures Classify(target, row).SamePerson? ==> Classify(target, row).id in target
  {
  }

  /** Every new row is the copy of exactly one inserted user, at the id the user is mapped to. */
  lemma {:induction false} NewRowsAreCopies(env: Env, source: Table, t0: Table, n0: int, ids: seq<int>)
    requires env.execute && InSource(source, ids) && NoRepeats(ids) && IdsBelow(t0, n0)
    ensures Entered(env, source, t0, n0, PlaceAll(env, source, Start(t0, n0), ids), ids)
  {
    hide Place, Entered, Grown;
    if ids == [] {
      EnterNone(env, source, t0, n0);
    } else {
      var init, last := ids[..|ids| - 1], ids[|ids| - 1];
      NewRowsAreCopies(env, source, t0, n0, init);
      TargetGrows(env, source, t0, n0, init);
      EnterOne(env, source, t0, n0, PlaceAll(env, source, Start(t0, n0), init), init, last);
      assert ids == init + [last];
    }
  }

  lemma EnterNone(env: Env, source: Table, t0: Table, n0: int)
    ensures Entered(env, source, t0, n0, Start(t0, n0), [])
  {
  }

  // ---------- Uniqueness ----------

  predicate UniqueNames(t: Table) {
    forall a <- t, b <- t :: a != b && t[a].username != "" ==> t[a].username != t[b].username
  }

  /** Usernames stay unique, whatever the source holds. */
  lemma {:induction false} NamesStayUnique(env: Env, source: Table, p: Progress, ids: seq<int>)
    requires InSource(source, ids) && UniqueNames(p.target)
    ensures UniqueNames(PlaceAll(env, source, p, ids).target)
  {
    hide Built, NewlyClaimed, NewlyDropped, AffCode, BoundValue, HoldsContact, SameContact;
    if ids != [] {
      NamesStayUnique(env, source, p, ids[..|ids| - 1]);
      var q, row := PlaceAll(env, source, p, ids[..|ids| - 1]), source[ids[|ids| - 1]];
      BuiltKeeps(env, q, row);
      if Classify(q.target, row) == Newcomer && row.username != "" {
        assert forall id <- q.target :: q.target[id].username == row.username ==> id in Named(q.target, row.username);
      }
    }
  }

  predicate UniqueBinding(t: Table, col: Column) {
    forall a <- t, b <- t :: a != b && Binding(t[a], col) != "" ==> Binding(t[a], col) != Binding(t[b], col)
  }

  /** Bindings stay unique, whatever the source holds. */
  lemma {:induction false} BindingsStayUnique(env: Env, source: Table, p: Progress, ids: seq<int>, col: Column)
    requires InSource(source, ids) && UniqueBinding(p.target, col)
    ensures UniqueBinding(PlaceAll(env, source, p, ids).target, col)
  {
    hide Built, NewlyClaimed, NewlyDropped, AffCode, Classify;
    if ids != [] {
      BindingsStayUnique(env, source, p, ids[..|ids| - 1], col);
      var q, row := PlaceAll(env, source, p, ids[..|ids| - 1]), source[ids[|ids| - 1]];
      BuiltKeeps(env, q, row);
    }
  }

  predicate UniqueCodes(t: Table) {
    forall a <- t, b <- t :: a != b && t[a].affCode != "" ==> t[a].affCode != t[b].affCode
  }

  /** Whatever codes are in use, one of the tries or the fallback is not among them; no code is blank. */
  ghost predicate DrawsUnused(codes: Codes) {
    && (forall used: set<string> ::
          codes.fallback(used) !in used || exists k: nat :: k < TRIES && codes.draw(used, k) !in used)
    && (forall used: set<string> :: codes.fallback(used) != "")
    && (forall used: set<string>, k: nat :: codes.draw(used, k) != "")
  }

  lemma {:induction false} DrawnIsFirst(codes: Codes, used: set<string>, from: nat)
    requires from <= 20
    ensures Drawn(codes, used, from) in used <==>
            codes.fallback(used) in used && forall k: nat :: from <= k < 20 ==> codes.draw(used, k) in used
    ensures Drawn(codes, used, from) == codes.fallback(used) ||
            exists k: nat :: from <= k < 20 && Drawn(codes, used, from) == codes.draw(used, k)
    decreases TRIES - from
  {
    if from < TRIES {
      DrawnIsFirst(codes, used, from + 1);
    }
  }

  /** The search ends with a code that nobody has. */
  lemma UnusedIsDrawn(codes: Codes, used: set<string>)
    requires DrawsUnused(codes)
    ensures Drawn(codes, used, 0) !in used && Drawn(codes, used, 0) != ""
  {
    DrawnIsFirst(codes, used, 0);
  }

  lemma AddCode(t: Table, n: int, u: User, used: set<string>)
    requires UniqueCodes(t) && UsedCodes(t) <= used && u.affCode !in used && n !in t
    ensures UniqueCodes(t[n := u]) && UsedCodes(t[n := u]) <= used + {u.affCode}
  {
    assert forall id <- t :: t[id].affCode != "" ==> t[id].affCode in UsedCodes(t);
  }

  ghost predicate CodesKept(t0: Table, p: Progress) {
    && UniqueCodes(p.target) && UsedCodes(p.target) <= p.affCodes
    && forall id <- p.target :: id in t0 || p.target[id].affCode != ""
  }

  lemma KeepCodes(env: Env, t0: Table, p: Progress, oldID: int, row: User)
    requires CodesKept(t0, p) && DrawsUnused(env.codes) && p.nextID !in p.target
    ensures CodesKept(t0, Place(env, p, oldID, row))
  {
    hide NewlyClaimed, NewlyDropped, BoundValue, Classify, UniqueCodes, UsedCodes, Drawn, DrawsUnused;
    UnusedIsDrawn(env.codes, p.affCodes);
    AddCode(p.target, p.nextID, NewUser(env, p, row), p.affCodes);
  }

  /** Invitation codes stay unique, and every new user has one. */
  lemma {:induction false} CodesStayUnique(env: Env, source: Table, t0: Table, n0: int, ids: seq<int>)
    requires InSource(source, ids) && IdsBelow(t0, n0) && UniqueCodes(t0) && DrawsUnused(env.codes)
    ensures CodesKept(t0, PlaceAll(env, source, Start(t0, n0), ids))
  {
    hide Place, UsedCodes, DrawsUnused, UniqueCodes;
    if ids != [] {
      hide CodesKept;
      var init, last := ids[..|ids| - 1], ids[|ids| - 1];
      CodesStayUnique(env, source, t0, n0, init);
      TargetGrows(env, source, t0, n0, init);
      KeepCodes(env, t0, PlaceAll(env, source, Start(t0, n0), init), last, source[last]);
    }
  }

  datatype Kind = Phone | Email

  function Contact(kind: Kind, u: User): string {
    match kind
    case Phone => u.phone
    case Email => u.email
  }

  predicate UniqueContact(t: Table, kind: Kind) {
    forall a <- t, b <- t :: a != b && Contact(kind, t[a]) != "" ==> Contact(kind, t[a]) != Contact(kind, t[b])
  }

  /** Rows that the check for a taken contact does not protect: it compares the trimmed contact but stores the raw one,
      and it skips rows of the same, possibly blank, username. */
  predicate Unprotected(kind: Kind, u: User) {
    u.username == "" || !Stripped(Contact(kind, u))
  }

  /** A protected new row shares its contact with no row before it. */
  predicate ProtectedApart(t0: Table, t: Table, kind: Kind) {
    forall n <- t, m <- t :: n !in t0 && m < n && !Unprotected(kind, t[n]) && Contact(kind, t[n]) != "" ==>
        Contact(kind, t[m]) != Contact(kind, t[n])
  }

  lemma NewcomerIsApart(target: Table, row: User, kind: Kind, id: int)
    requires Classify(target, row) == Newcomer && !Unprotected(kind, row) && id in target && Contact(kind, row) != ""
    ensures Contact(kind, target[id]) != Contact(kind, row)
  {
    assert id !in Named(target, row.username);
    assert !HoldsContact(row, target[id]);
  }

  lemma {:induction false} ProtectedStayApart(env: Env, source: Table, t0: Table, n0: int, ids: seq<int>, kind: Kind)
    requires InSource(source, ids) && IdsBelow(t0, n0)
    ensures ProtectedApart(t0, PlaceAll(env, source, Start(t0, n0), ids).target, kind)
  {
    hide Built, NewlyClaimed, NewlyDropped, AffCode, BoundValue, Classify, Unprotected;
    if ids != [] {
      var init, row := ids[..|ids| - 1], source[ids[|ids| - 1]];
      ProtectedStayApart(env, source, t0, n0, init, kind);
      TargetGrows(env, source, t0, n0, init);
      var q := PlaceAll(env, source, Start(t0, n0), init);
      BuiltKeeps(env, q, row);
      if Classify(q.target, row) == Newcomer && env.execute {
        assert Unprotected(kind, NewUser(env, q, row)) == Unprotected(kind, row) by {
          CopyProtected(env, q, row, kind);
        }
        forall m | m in q.target && !Unprotected(kind, row) && Contact(kind, row) != ""
          ensures Contact(kind, q.target[m]) != Contact(kind, row)
        {
          NewcomerIsApart(q.target, row, kind, m);
        }
      }
    }
  }

  lemma CopyProtected(env: Env, p: Progress, row: User, kind: Kind)
    ensures Unprotected(kind, NewUser(env, p, row)) == Unprotected(kind, row)
    ensures Contact(kind, NewUser(env, p, row)) == Contact(kind, row)
  {
    hide AffCode, BoundValue;
  }

  /** Contacts stay unique exactly when no new row that lacks a username or is stored untrimmed repeats another row's
      contact. */
  lemma ContactsStayUnique(env: Env, source: Table, t0: Table, n0: int, ids: seq<int>, kind: Kind)
    requires InSource(source, ids) && IdsBelow(t0, n0)
    ensures var t := PlaceAll(env, source, Start(t0, n0), ids).target;
            UniqueContact(t, kind) <==>
            UniqueContact(t0, kind) &&
            forall n <- t, m <- t :: n !in t0 && m != n && Unprotected(kind, t[n]) && Contact(kind, t[n]) != "" ==>
                Contact(kind, t[m]) != Contact(kind, t[n])
  {
    hide Place, Unprotected, Contact;
    TargetGrows(env, source, t0, n0, ids);
    ProtectedStayApart(env, source, t0, n0, ids, kind);
  }

  /** With usernames and trimmed contacts in the source, contacts stay unique. */
  lemma TrimmedContactsStayUnique(env: Env, source: Table, t0: Table, n0: int, ids: seq<int>, kind: Kind)
    requires env.execute && InSource(source, ids) && NoRepeats(ids) && IdsBelow(t0, n0) && UniqueContact(t0, kind)
    requires forall i :: 0 <= i < |ids| ==> !Unprotected(kind, source[ids[i]])
    ensures UniqueContact(PlaceAll(env, source, Start(t0, n0), ids).target, kind)
  {
    hide Place;
    NewRowsAreCopies(env, source, t0, n0, ids);
    ContactsStayUnique(env, source, t0, n0, ids, kind);
    var p := PlaceAll(env, source, Start(t0, n0), ids);
    forall n | n in p.target && n !in t0 ensures !Unprotected(kind, p.target[n]) {
      var i :| 0 <= i < |p.inserted| && p.inserted[i].created == Some(n);
      assert IsEntry(env, source, p, p.inserted[i]);
    }
  }

  function Plain(name: string, phone: string): User {
    User(name, phone, "", false, None, false, 0, "", map[], "", 0, None, 0)
  }

  /** Untrimmed contacts do repeat: two users with the same phone behind a space are both inserted. */
  lemma UntrimmedPhoneRepeats(env: Env)
    requires env.execute
    ensures var source := map[1 := Plain("a", " 1"), 2 := Plain("b", " 1")];
            !UniqueContact(PlaceAll(env, source, Start(map[], 1), [1, 2]).target, Phone)
  {
    hide Built, NewUser;
    var source := map[1 := Plain("a", " 1"), 2 := Plain("b", " 1")];
    var p0 := Start(map[], 1);
    assert [1, 2][..1] == [1] && [1][..0] == [];
    var p1 := Place(env, p0, 1, source[1]);
    FirstOfTwo(env, p0, source[1]);
    assert Strip(" 1") == "1" by {
      assert " 1"[1..] == "1";
    }
    CopyProtected(env, p0, source[1], Phone);
    assert p1.target == map[1 := NewUser(env, p0, source[1])];
    assert p1.target[1].phone == " 1" && p1.target[1].username == "a" && p1.target[1].email == "";
    assert !HoldsContact(source[2], p1.target[1]) by {
      assert Strip("") == "";
      assert " 1"[0] != "1"[0];
    }
    assert Named(p1.target, "b") == {};
    assert Classify(p1.target, source[2]) == Newcomer;
    CopyProtected(env, p1, source[2], Phone);
    BuiltKeeps(env, p1, source[2]);
    var p2 := Place(env, p1, 2, source[2]);
    assert p2.target[1].phone == " 1" && p2.target[2].phone == " 1";
    assert PlaceAll(env, source, p0, []) == p0;
    assert PlaceAll(env, source, p0, [1]) == p1;
    assert [1, 2][|[1, 2]| - 1] == 2;
    assert PlaceAll(env, source, p0, [1, 2]) == p2;
  }

  lemma FirstOfTwo(env: Env, p: Progress, row: User)
    requires env.execute && p.target == map[]
    ensures Place(env, p, 1, row).target == map[p.nextID := NewUser(env, p, row)]
            && Place(env, p, 1, row).nextID == p.nextID + 1
    ensures NewUser(env, p, row).username == row.username && NewUser(env, p, row).email == row.email
  {
    BuiltKeeps(env, p, row);
  }

  // ---------- Where one user goes, by names and contacts ----------

  /** A contact that is not blank and the same on both sides, spaces aside. */
  ghost predicate SharesContact(a: User, b: User) {
    || (Strip(a.phone) == Strip(b.phone) && Strip(b.phone) != "")
    || (Strip(a.email) == Strip(b.email) && Strip(b.email) != "")
  }

  /** A user whose name the target knows is the same person, and mapped to the first row of that name, exactly when that
      row shares a contact; otherwise it is listed for a manual decision. */
  lemma KnownNameGoes(env: Env, p: Progress, oldID: int, row: User, id: int)
    requires row.username != "" && id in p.target && p.target[id].username == row.username
    requires forall other <- p.target :: p.target[other].username == row.username ==> id <= other
    ensures var q := Place(env, p, oldID, row);
            && (SharesContact(row, p.target[id]) ==>
                  q == p.(same := p.same + [oldID], oldToNew := p.oldToNew[oldID := id],
                          resolved := p.resolved + {oldID}))
            && (!SharesContact(row, p.target[id]) ==> q == p.(manual := p.manual + [oldID]))
  {
    hide Strip, Built, NewUser;
    assert id in Named(p.target, row.username);
  }

  /** A user without a name, or of a name that the target does not know, is passed over exactly when a row of another
      name holds its trimmed phone or email; otherwise it is inserted. */
  lemma UnknownNameGoes(env: Env, p: Progress, oldID: int, row: User)
    requires row.username != "" ==> forall id <- p.target :: p.target[id].username != row.username
    ensures var q := Place(env, p, oldID, row);
            if exists id <- p.target ::
                 && p.target[id].username != row.username
                 && ((p.target[id].phone == Strip(row.phone) && p.target[id].phone != "")
                     || (p.target[id].email == Strip(row.email) && p.target[id].email != ""))
            then q == p.(taken := p.taken + [oldID])
            else
              && q.inserted == p.inserted + [Entry(oldID, if env.execute then Some(p.nextID) else None)]
              && q.resolved == p.resolved + {oldID}
              && (env.execute ==>
                    q.oldToNew == p.oldToNew[oldID := p.nextID] && q.target.Keys == p.target.Keys + {p.nextID})
              && (!env.execute ==> q.oldToNew == p.oldToNew && q.target == p.target)
              && q.same == p.same && q.manual == p.manual && q.taken == p.taken
  {
    hide Strip, Built, NewUser;
    assert row.username != "" ==> forall id :: id !in Named(p.target, row.username);
    BuiltKeeps(env, p, row);
  }

  // ---------- The preview ----------

  /** A preview against the same columns; `trial` stands for its own clock and its own random codes. */
  function Preview(env: Env, trial: Env): Env {
    trial.(execute := false, columns := env.columns)
  }

  function Real(env: Env): Env {
    env.(execute := true)
  }

  /** The lists of the two modes agree. */
  predicate SameLists(d: Progress, e: Progress) {
    OldIds(d.inserted) == OldIds(e.inserted) && d.same == e.same && d.manual == e.manual && d.taken == e.taken
  }

  /** The modes also resolved the same users, dropped the same bindings and used up the same values. */
  predicate SameDecisions(d: Progress, e: Progress) {
    SameLists(d, e) && d.resolved == e.resolved && d.dropped == e.dropped && d.claimed == e.claimed
  }

  /** Inserting `a` changes how `b` is classified. */
  predicate Surprises(t0: Table, a: User, b: User) {
    && Classify(t0, a) == Newcomer
    && (Classify(t0, b) == Newcomer || Classify(t0, b) == ContactTaken)
    && ((b.username != "" && a.username == b.username) || (Classify(t0, b) == Newcomer && HoldsContact(b, a)))
  }

  predicate NoSurprise(source: Table, t0: Table, ids: seq<int>)
    requires InSource(source, ids)
  {
    forall i, j :: 0 <= i < j < |ids| ==> !Surprises(t0, source[ids[i]], source[ids[j]])
  }

  ghost predicate NameAdded(t0: Table, t: Table, row: User) {
    row.username != "" && exists n <- t :: n !in t0 && t[n].username == row.username
  }

  ghost predicate ContactAdded(t0: Table, t: Table, row: User) {
    exists n <- t :: n !in t0 && HoldsContact(row, t[n])
  }

  /** Old rows come first, so a user found by name stays found; a user not found may become found. */
  lemma ClassInGrownTarget(t0: Table, t: Table, row: User)
    requires t0.Keys <= t.Keys && (forall id <- t0 :: t[id] == t0[id]) && forall n <- t, id <- t0 :: n !in t0 ==> id < n
    ensures Classify(t, row) == Classify(t0, row) <==>
            Classify(t0, row).SamePerson? || Classify(t0, row) == Manual ||
            (!NameAdded(t0, t, row) && (Classify(t0, row) == Newcomer ==> !ContactAdded(t0, t, row)))
    ensures Classify(t, row) != Classify(t0, row) ==> !Classify(t0, row).SamePerson?
  {
    hide SameContact, HoldsContact;
    NamedGrows(t0, t, row);
    if row.username != "" && Named(t0, row.username) != {} {
      LeastStays(Named(t0, row.username), Named(t, row.username));
    }
  }

  lemma NamedGrows(t0: Table, t: Table, row: User)
    requires t0.Keys <= t.Keys && forall id <- t0 :: t[id] == t0[id]
    ensures Named(t0, row.username) <= Named(t, row.username)
    ensures row.username != "" && Named(t0, row.username) == {} ==>
            (NameAdded(t0, t, row) <==> Named(t, row.username) != {})
    ensures forall n <- Named(t, row.username) :: n in t && (n in t0 ==> n in Named(t0, row.username))
  {
    forall id | id in Named(t0, row.username) ensures id in Named(t, row.username) {
      assert t[id] == t0[id];
    }
    if Named(t, row.username) != {} {
      var n := Member(Named(t, row.username));
      assert n in t0 ==> t[n] == t0[n] && n in Named(t0, row.username);
    }
    if NameAdded(t0, t, row) {
      var n :| n in t && n !in t0 && t[n].username == row.username;
      assert n in Named(t, row.username);
    }
  }

  lemma LeastStays(a: set<int>, b: set<int>)
    requires a != {} && a <= b && forall x <- b, y <- a :: x !in a ==> y < x
    ensures Least(a) == Least(b)
  {
  }

  /** The new rows hold only bindings that were claimed. */
  ghost predicate BindingsClaimed(t0: Table, p: Progress) {
    forall n <- p.target, col: Column ::
        n in t0 || Binding(p.target[n], col) == "" || (col, Binding(p.target[n], col)) in p.claimed
  }

  lemma ClaimOne(env: Env, t0: Table, p: Progress, oldID: int, row: User)
    requires BindingsClaimed(t0, p)
    ensures BindingsClaimed(t0, Place(env, p, oldID, row))
  {
    hide Classify, AffCode, BoundValue, NewlyDropped;
  }

  lemma {:induction false} NewBindingsClaimed(env: Env, source: Table, t0: Table, n0: int, ids: seq<int>)
    requires InSource(source, ids)
    ensures BindingsClaimed(t0, PlaceAll(env, source, Start(t0, n0), ids))
  {
    hide Place;
    if ids != [] {
      hide BindingsClaimed;
      NewBindingsClaimed(env, source, t0, n0, ids[..|ids| - 1]);
      ClaimOne(env, t0, PlaceAll(env, source, Start(t0, n0), ids[..|ids| - 1]), ids[|ids| - 1], source[ids[|ids| - 1]]);
    }
  }

  /** Both modes find the same bindings taken. */
  lemma SameBindings(t0: Table, d: Progress, e: Progress, col: Column, value: string)
    requires d.target == t0 && t0.Keys <= e.target.Keys && forall id <- t0 :: e.target[id] == t0[id]
    requires d.claimed == e.claimed && BindingsClaimed(t0, e) && value != ""
    ensures BindingTaken(d.target, d.claimed, col, value) == BindingTaken(e.target, e.claimed, col, value)
  {
    if id :| id in d.target && Binding(d.target[id], col) == value {
      assert Binding(e.target[id], col) == value;
    }
  }

  lemma {:induction false} SameDropped(d: Progress, e: Progress, row: User, columns: seq<Column>)
    requires forall col: Column, value: string :: value != "" ==>
             BindingTaken(d.target, d.claimed, col, value) == BindingTaken(e.target, e.claimed, col, value)
    ensures NewlyDropped(d, row, columns) == NewlyDropped(e, row, columns)
    ensures NewlyClaimed(d, row, columns) == NewlyClaimed(e, row, columns)
  {
    hide BindingTaken;
    if columns != [] {
      SameDropped(d, e, row, columns[..|columns| - 1]);
    }
    assert forall col: Column :: BoundValue(d.target, d.claimed, row, col) == BoundValue(e.target, e.claimed, row, col);
  }

  lemma SameStep(env: Env, trial: Env, t0: Table, d: Progress, e: Progress, oldID: int, row: User)
    requires d.target == t0 && t0.Keys <= e.target.Keys && forall id <- t0 :: e.target[id] == t0[id]
    requires SameDecisions(d, e) && BindingsClaimed(t0, e) && Classify(t0, row) == Classify(e.target, row)
    ensures SameDecisions(Place(Preview(env, trial), d, oldID, row), Place(Real(env), e, oldID, row))
  {
    hide Classify, BindingTaken, NewlyClaimed, NewlyDropped, BindingsClaimed, NewUser;
    forall col: Column, value: string | value != ""
      ensures BindingTaken(d.target, d.claimed, col, value) == BindingTaken(e.target, e.claimed, col, value)
    {
      SameBindings(t0, d, e, col, value);
    }
    SameDropped(d, e, row, env.columns);
    if Classify(t0, row) == Newcomer {
      InsertedGrows(d.inserted, Entry(oldID, None));
      InsertedGrows(e.inserted, Entry(oldID, Some(e.nextID)));
    }
  }

  /** Lists that agree after a user agreed before, and received the user in the same place. */
  lemma AgreementGoesBack(env: Env, trial: Env, d: Progress, e: Progress, oldID: int, row: User)
    requires oldID !in Placed(d) && oldID !in Placed(e)
    requires SameLists(Place(Preview(env, trial), d, oldID, row), Place(Real(env), e, oldID, row))
    ensures SameLists(d, e)
    ensures ListFor(Classify(d.target, row)) == ListFor(Classify(e.target, row))
  {
    hide Classify, OldIds, Place, ListFor, Placed;
    var k, l := ListFor(Classify(d.target, row)), ListFor(Classify(e.target, row));
    assert k < 4 && l < 4 by {
      ListForBelow(Classify(d.target, row));
      ListForBelow(Classify(e.target, row));
    }
    forall n: nat | n < 4
      ensures NthList(d, n) == NthList(e, n) && (k == n ==> l == n)
    {
      PlaceAppends(Preview(env, trial), d, oldID, row, n);
      PlaceAppends(Real(env), e, oldID, row, n);
      NotListed(d, oldID, n);
      NotListed(e, oldID, n);
      AppendsAgree(NthList(d, n), NthList(e, n), oldID);
    }
    assert NthList(d, 0) == NthList(e, 0) && NthList(d, 1) == NthList(e, 1) && NthList(d, 2) == NthList(e, 2)
           && NthList(d, 3) == NthList(e, 3);
  }

  lemma NotListed(p: Progress, oldID: int, n: nat)
    requires oldID !in Placed(p) && n < 4
    ensures oldID !in NthList(p, n)
  {
    hide OldIds;
  }

  lemma AppendsAgree(a: seq<int>, b: seq<int>, x: int)
    requires x !in a && x !in b
    ensures a + [x] == b + [x] ==> a == b
    ensures a + [x] != b && a != b + [x]
  {
    if a + [x] == b + [x] {
      assert a == (a + [x])[..|a|] && b == (b + [x])[..|b|];
    }
    assert x in a + [x] && x in b + [x];
  }

  /** In the preview the inserted users are the newcomers of the untouched target. */
  lemma {:induction false} PreviewInserts(env: Env, trial: Env, source: Table, t0: Table, n0: int, ids: seq<int>)
    requires InSource(source, ids)
    ensures var d := PlaceAll(Preview(env, trial), source, Start(t0, n0), ids);
            d.target == t0 && forall o :: o in OldIds(d.inserted) <==> o in ids && Classify(t0, source[o]) == Newcomer
  {
    hide Classify, Place, OldIds;
    if ids == [] {
      NobodyInserted(t0, n0);
    } else {
      var init, last := ids[..|ids| - 1], ids[|ids| - 1];
      assert ids == init + [last];
      PreviewInserts(env, trial, source, t0, n0, init);
      var d := PlaceAll(Preview(env, trial), source, Start(t0, n0), init);
      PreviewKeepsTarget(env, trial, d, last, source[last]);
      PlaceAppends(Preview(env, trial), d, last, source[last], 0);
    }
  }

  lemma NobodyInserted(t0: Table, n0: int)
    ensures OldIds(Start(t0, n0).inserted) == [] && Start(t0, n0).target == t0
  {
  }

  lemma PreviewKeepsTarget(env: Env, trial: Env, p: Progress, oldID: int, row: User)
    ensures Place(Preview(env, trial), p, oldID, row).target == p.target
  {
    hide Classify, Built, NewUser;
    BuiltKeeps(Preview(env, trial), p, row);
  }

  lemma {:induction false} OldIdsAt(entries: seq<Entry>)
    ensures |OldIds(entries)| == |entries| && forall i :: 0 <= i < |entries| ==> OldIds(entries)[i] == entries[i].oldID
  {
    if entries != [] {
      OldIdsAt(entries[..|entries| - 1]);
    }
  }

  /** After lists that agree, the rows added to the target are copies of the newcomers, so the next user is classified
      as in the preview exactly when no newcomer surprises it. */
  lemma NextClass(env: Env, trial: Env, source: Table, t0: Table, n0: int, ids: seq<int>, row: User)
    requires InSource(source, ids) && NoRepeats(ids) && IdsBelow(t0, n0)
    requires SameLists(PlaceAll(Preview(env, trial), source, Start(t0, n0), ids),
             PlaceAll(Real(env), source, Start(t0, n0), ids))
    ensures var e := PlaceAll(Real(env), source, Start(t0, n0), ids);
            && (Classify(e.target, row) == Classify(t0, row) <==>
              forall i :: 0 <= i < |ids| ==> !Surprises(t0, source[ids[i]], row))
            && (Classify(e.target, row) != Classify(t0, row) ==>
              ListFor(Classify(e.target, row)) != ListFor(Classify(t0, row)))
  {
    hide Classify, Place, HoldsContact, PlaceAll, SomeNewcomer, Surprises, NameAdded, ContactAdded, Entered,
         CopiesNewcomer, HasCopy, ListFor,
         SameLists, IsNamed, Holds;
    var d := PlaceAll(Preview(env, trial), source, Start(t0, n0), ids);
    var e := PlaceAll(Real(env), source, Start(t0, n0), ids);
    TargetGrows(Real(env), source, t0, n0, ids);
    NewRowsAreCopies(Real(env), source, t0, n0, ids);
    ClassInGrownTarget(t0, e.target, row);
    NewRowsAreNewcomers(env, trial, source, t0, n0, ids);
    AddedByNewcomers(env, source, t0, ids, e.target, row);
    SurpriseForms(source, t0, ids, row);
    ListsTellClasses(Classify(e.target, row), Classify(t0, row));
  }

  lemma ListsTellClasses(c: Class, d: Class)
    ensures c != d && !d.SamePerson? ==> ListFor(c) != ListFor(d)
  {
  }

  lemma SurpriseForms(source: Table, t0: Table, ids: seq<int>, row: User)
    requires InSource(source, ids)
    ensures (forall i :: 0 <= i < |ids| ==> !Surprises(t0, source[ids[i]], row)) <==>
            Classify(t0, row).SamePerson? || Classify(t0, row) == Manual ||
            (!(row.username != "" && SomeNewcomer(source, t0, ids, IsNamed(row.username))) &&
             (Classify(t0, row) == Newcomer ==> !SomeNewcomer(source, t0, ids, Holds(row))))
  {
    hide Classify, HoldsContact;
    if !Classify(t0, row).SamePerson? && Classify(t0, row) != Manual {
      if row.username != "" && SomeNewcomer(source, t0, ids, IsNamed(row.username)) {
        var i :| 0 <= i < |ids| && Classify(t0, source[ids[i]]) == Newcomer && IsNamed(row.username)(source[ids[i]]);
        assert Surprises(t0, source[ids[i]], row);
      }
      if Classify(t0, row) == Newcomer && SomeNewcomer(source, t0, ids, Holds(row)) {
        var i :| 0 <= i < |ids| && Classify(t0, source[ids[i]]) == Newcomer && Holds(row)(source[ids[i]]);
        assert Surprises(t0, source[ids[i]], row);
      }
      forall i | 0 <= i < |ids| && Surprises(t0, source[ids[i]], row)
        ensures (row.username != "" && SomeNewcomer(source, t0, ids, IsNamed(row.username))) ||
                (Classify(t0, row) == Newcomer && SomeNewcomer(source, t0, ids, Holds(row)))
      {
        assert IsNamed(row.username)(source[ids[i]]) || Holds(row)(source[ids[i]]);
      }
    }
  }

  /** Some newcomer has this property. */
  ghost predicate SomeNewcomer(source: Table, t0: Table, ids: seq<int>, p: User -> bool)
    requires InSource(source, ids)
  {
    exists i :: 0 <= i < |ids| && Classify(t0, source[ids[i]]) == Newcomer && p(source[ids[i]])
  }

  function IsNamed(name: string): User -> bool {
    (u: User) => u.username == name
  }

  function Holds(row: User): User -> bool {
    (u: User) => HoldsContact(row, u)
  }

  lemma NewRowsAreNewcomers(env: Env, trial: Env, source: Table, t0: Table, n0: int, ids: seq<int>)
    requires InSource(source, ids)
    requires var d := PlaceAll(Preview(env, trial), source, Start(t0, n0), ids);
             var e := PlaceAll(Real(env), source, Start(t0, n0), ids);
             && SameLists(d, e) && Entered(Real(env), source, t0, n0, e, ids) && IdsBelow(t0, n0)
    ensures var e := PlaceAll(Real(env), source, Start(t0, n0), ids);
            && (forall n <- e.target :: n in t0 || CopiesNewcomer(env, source, t0, ids, e.target[n]))
            && (forall i :: 0 <= i < |ids| && Classify(t0, source[ids[i]]) == Newcomer ==>
              HasCopy(env, t0, e.target, source[ids[i]]))
  {
    hide Classify, Place, PlaceAll, IsCopy;
    var d := PlaceAll(Preview(env, trial), source, Start(t0, n0), ids);
    var e := PlaceAll(Real(env), source, Start(t0, n0), ids);
    PreviewInserts(env, trial, source, t0, n0, ids);
    OldIdsAt(e.inserted);
    forall n | n in e.target && n !in t0 ensures CopiesNewcomer(env, source, t0, ids, e.target[n]) {
      var k :| 0 <= k < |e.inserted| && e.inserted[k].created == Some(n);
      assert IsEntry(Real(env), source, e, e.inserted[k]);
      assert OldIds(e.inserted)[k] in OldIds(d.inserted);
      var i :| 0 <= i < |ids| && ids[i] == e.inserted[k].oldID;
    }
    forall i | 0 <= i < |ids| && Classify(t0, source[ids[i]]) == Newcomer
      ensures HasCopy(env, t0, e.target, source[ids[i]])
    {
      var o := ids[i];
      assert o in ids;
      assert o in OldIds(d.inserted);
      var k :| 0 <= k < |e.inserted| && OldIds(e.inserted)[k] == o;
      assert IsEntry(Real(env), source, e, e.inserted[k]);
    }
  }

  /** A row copies one of the newcomers. */
  ghost predicate CopiesNewcomer(env: Env, source: Table, t0: Table, ids: seq<int>, u: User)
    requires InSource(source, ids)
  {
    exists i :: 0 <= i < |ids| && Classify(t0, source[ids[i]]) == Newcomer && IsCopy(Real(env), u, source[ids[i]])
  }

  /** One of the new rows copies this row. */
  ghost predicate HasCopy(env: Env, t0: Table, t: Table, row: User) {
    exists n <- t :: n !in t0 && IsCopy(Real(env), t[n], row)
  }

  lemma AddedByNewcomers(env: Env, source: Table, t0: Table, ids: seq<int>, t: Table, row: User)
    requires InSource(source, ids)
    requires forall n <- t :: n in t0 || CopiesNewcomer(env, source, t0, ids, t[n])
    requires forall i :: 0 <= i < |ids| && Classify(t0, source[ids[i]]) == Newcomer ==>
             HasCopy(env, t0, t, source[ids[i]])
    ensures NameAdded(t0, t, row) <==> row.username != "" && SomeNewcomer(source, t0, ids, IsNamed(row.username))
    ensures ContactAdded(t0, t, row) <==> SomeNewcomer(source, t0, ids, Holds(row))
  {
    hide Classify, IsCopy, HoldsContact;
    forall u: User, v: User | IsCopy(Real(env), u, v)
      ensures u.username == v.username && (HoldsContact(row, u) <==> HoldsContact(row, v))
    {
      CopyHolds(Real(env), u, v, row);
    }
  }

  lemma CopyHolds(env: Env, u: User, v: User, row: User)
    requires IsCopy(env, u, v)
    ensures u.username == v.username && (HoldsContact(row, u) <==> HoldsContact(row, v))
  {
  }

  /** Whether the modes still agree after one more user. */
  lemma PredictOne(env: Env, trial: Env, source: Table, t0: Table, n0: int, ids: seq<int>, oldID: int)
    requires InSource(source, ids) && NoRepeats(ids) && IdsBelow(t0, n0) && oldID in source && oldID !in ids
    requires var d := PlaceAll(Preview(env, trial), source, Start(t0, n0), ids);
             var e := PlaceAll(Real(env), source, Start(t0, n0), ids);
             SameLists(d, e) ==> SameDecisions(d, e)
    ensures var d := PlaceAll(Preview(env, trial), source, Start(t0, n0), ids);
            var e := PlaceAll(Real(env), source, Start(t0, n0), ids);
            var d1 := Place(Preview(env, trial), d, oldID, source[oldID]);
            var e1 := Place(Real(env), e, oldID, source[oldID]);
            && (SameLists(d1, e1) <==>
              SameLists(d, e) && forall i :: 0 <= i < |ids| ==> !Surprises(t0, source[ids[i]], source[oldID]))
            && (SameLists(d1, e1) ==> SameDecisions(d1, e1))
  {
    hide Place, Classify, Surprises, SameLists, SameDecisions, ListFor, PlaceAll;
    var row := source[oldID];
    var d := PlaceAll(Preview(env, trial), source, Start(t0, n0), ids);
    var e := PlaceAll(Real(env), source, Start(t0, n0), ids);
    var d1, e1 := Place(Preview(env, trial), d, oldID, row), Place(Real(env), e, oldID, row);
    PreviewInserts(env, trial, source, t0, n0, ids);
    if SameLists(d, e) {
      NextClass(env, trial, source, t0, n0, ids, row);
      if Classify(e.target, row) == Classify(t0, row) {
        TargetGrows(Real(env), source, t0, n0, ids);
        NewBindingsClaimed(Real(env), source, t0, n0, ids);
        SameStep(env, trial, t0, d, e, oldID, row);
        DecisionsAgree(d1, e1);
      }
    }
    if SameLists(d1, e1) {
      NotPlacedYet(Preview(env, trial), source, t0, n0, ids, oldID);
      NotPlacedYet(Real(env), source, t0, n0, ids, oldID);
      AgreementGoesBack(env, trial, d, e, oldID, row);
    }
  }

  lemma DecisionsAgree(d: Progress, e: Progress)
    requires SameDecisions(d, e)
    ensures SameLists(d, e)
  {
  }

  lemma NoSurpriseLast(source: Table, t0: Table, ids: seq<int>, oldID: int)
    requires InSource(source, ids) && oldID in source
    ensures NoSurprise(source, t0, ids + [oldID]) <==>
            NoSurprise(source, t0, ids) && forall i :: 0 <= i < |ids| ==> !Surprises(t0, source[ids[i]], source[oldID])
  {
    hide Surprises;
    var more := ids + [oldID];
    assert more[|ids|] == oldID && forall i :: 0 <= i < |ids| ==> more[i] == ids[i];
  }

  /** The preview predicts the real run exactly when no user is surprised by a newcomer before it; it then predicts the
      dropped bindings too. The preview itself leaves the target alone. */
  lemma {:induction false} PreviewPredicts(env: Env, trial: Env, source: Table, t0: Table, n0: int, ids: seq<int>)
    requires InSource(source, ids) && NoRepeats(ids) && IdsBelow(t0, n0)
    ensures var d := PlaceAll(Preview(env, trial), source, Start(t0, n0), ids);
            var e := PlaceAll(Real(env), source, Start(t0, n0), ids);
            && d.target == t0
            && (SameLists(d, e) <==> NoSurprise(source, t0, ids))
            && (SameLists(d, e) ==> SameDecisions(d, e))
  {
    hide Place, Classify, SameLists, SameDecisions, NoSurprise, Surprises, Start;
    PreviewInserts(env, trial, source, t0, n0, ids);
    if ids == [] {
      StartAgrees(t0, n0);
      NothingSurprises(source, t0, ids);
    } else {
      var init, last := ids[..|ids| - 1], ids[|ids| - 1];
      assert ids == init + [last];
      PreviewPredicts(env, trial, source, t0, n0, init);
      PredictOne(env, trial, source, t0, n0, init, last);
      NoSurpriseLast(source, t0, init, last);
    }
  }

  /** Two users with the same phone: the preview announces both, the real run inserts the first and finds the contact
      taken for the second. */
  lemma SharedPhoneMispredicts(env: Env, trial: Env)
    ensures var source := map[1 := Plain("a", "1"), 2 := Plain("b", "1")];
            var d := PlaceAll(Preview(env, trial), source, Start(map[], 1), [1, 2]);
            var e := PlaceAll(Real(env), source, Start(map[], 1), [1, 2]);
            !NoSurprise(source, map[], [1, 2]) && !SameLists(d, e)
  {
    hide PlaceAll;
    var source := map[1 := Plain("a", "1"), 2 := Plain("b", "1")];
    var t0: Table := map[];
    assert Classify(t0, source[1]) == Newcomer && Classify(t0, source[2]) == Newcomer;
    assert HoldsContact(source[2], source[1]) by {
      assert "1"[0] == '1';
    }
    assert Surprises(t0, source[[1, 2][0]], source[[1, 2][1]]);
    PreviewPredicts(env, trial, source, t0, 1, [1, 2]);
  }

  lemma NothingSurprises(source: Table, t0: Table, ids: seq<int>)
    requires ids == []
    ensures NoSurprise(source, t0, ids)
  {
  }

  lemma StartAgrees(t0: Table, n0: int)
    ensures SameDecisions(Start(t0, n0), Start(t0, n0)) && SameLists(Start(t0, n0), Start(t0, n0))
  {
  }

  lemma NotPlacedYet(env: Env, source: Table, t0: Table, n0: int, ids: seq<int>, oldID: int)
    requires InSource(source, ids) && oldID !in ids
    ensures oldID !in Placed(PlaceAll(env, source, Start(t0, n0), ids))
  {
    hide Place, PlaceAll;
    ListsPartition(env, source, Start(t0, n0), ids);
  }

  /** No username and no contact occurs twice in the source. */
  predicate Apart(source: Table, ids: seq<int>)
    requires InSource(source, ids)
  {
    forall i, j :: 0 <= i < j < |ids| ==>
      (source[ids[i]].username == "" || source[ids[i]].username != source[ids[j]].username)
        && !HoldsContact(source[ids[j]], source[ids[i]])
  }

  /** With unique usernames and contacts in the source, the preview predicts the real run. */
  lemma ApartSourcePredicts(env: Env, trial: Env, source: Table, t0: Table, n0: int, ids: seq<int>)
    requires InSource(source, ids) && NoRepeats(ids) && IdsBelow(t0, n0) && Apart(source, ids)
    ensures SameDecisions(PlaceAll(Preview(env, trial), source, Start(t0, n0), ids),
            PlaceAll(Real(env), source, Start(t0, n0), ids))
  {
    hide Classify, HoldsContact, PlaceAll, SameDecisions;
    PreviewPredicts(env, trial, source, t0, n0, ids);
    assert NoSurprise(source, t0, ids);
  }
}
