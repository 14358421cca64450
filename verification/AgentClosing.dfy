/** Which targets a migration can close a cycle in (bin/migrate_agent_users.py). */
module AgentClosing {
  import opened Options
  import opened Seqs
  import opened Sets
  import opened AgentUsers
  import opened AgentMigration
  import opened AgentRuns
  import opened AgentInviters
  import opened AgentCycles

  // ---------- A source that closes a cycle ----------

  function Xs(n: nat): (r: string)
    ensures |r| == n
  {
    if n == 0 then "" else Xs(n - 1) + "x"
  }

  function UpTo(n: nat): (r: seq<int>)
    ensures |r| == n && forall i :: 0 <= i < n ==> r[i] == i + 1
  {
    if n == 0 then [] else UpTo(n - 1) + [n]
  }

  /** A user with the username and the contacts of a row. */
  function Twin(row: User): User {
    Plain(row.username, row.phone).(email := row.email)
  }

  /** A user with a long name, no contact, and user 1 as its inviter. */
  function Stranger(nameLength: nat): User {
    Plain(Xs(nameLength), "").(inviter := 1)
  }

  /** The twin of a row and the users it invited. */
  function TwinAndStrangers(row: User, len: nat, count: nat): Table {
    if count == 0 then map[1 := Twin(row)]
    else TwinAndStrangers(row, len, count - 1)[count + 1 := Stranger(len + count + 1)]
  }

  lemma {:induction false} StrangersAt(row: User, len: nat, count: nat)
    ensures var t := TwinAndStrangers(row, len, count);
            && (forall i :: i in t <==> 1 <= i <= count + 1)
            && t[1] == Twin(row) && (forall i :: 2 <= i <= count + 1 ==> t[i] == Stranger(len + i))
  {
    hide Twin, Stranger;
    if count > 0 {
      StrangersAt(row, len, count - 1);
    }
  }

  predicate NamesWithin(t: Table, len: nat) {
    forall id <- t :: |t[id].username| <= len
  }

  lemma LongestName(t: Table) returns (len: nat)
    ensures NamesWithin(t, len)
    decreases |t|
  {
    if t.Keys == {} {
      len := 0;
      assert forall id <- t :: id in t.Keys;
    } else {
      var id := Member(t.Keys);
      var rest := t - {id};
      assert |rest.Keys| < |t.Keys| by {
        assert rest.Keys == t.Keys - {id};
      }
      var n := LongestName(rest);
      assert forall x <- t :: x == id || (x in rest && rest[x] == t[x]);
      len := if n < |t[id].username| then |t[id].username| else n;
    }
  }

  /** After the twin and `n` strangers. */
  ghost predicate Lined(t0: Table, n0: int, id: int, len: nat, n: nat, p: Progress) {
    && p.nextID == n0 + n && 1 in p.oldToNew && p.oldToNew[1] == id
    && (forall x <- p.target ::
      (x in t0 && p.target[x] == t0[x]) || (n0 <= x < n0 + n && |p.target[x].username| == len + 2 + x - n0))
    && (n > 0 ==> n + 1 in InsertedIds(p) && n + 1 in p.oldToNew && p.oldToNew[n + 1] == n0 + n - 1)
  }

  lemma TwinIsMatched(t: Table, id: int)
    requires Matchable(t, id)
    ensures Classify(t, Twin(t[id])) == SamePerson(id)
  {
    hide Strip;
    assert id in Named(t, t[id].username);
  }

  lemma StrangerIsNewcomer(t0: Table, n0: int, id: int, len: nat, n: nat, p: Progress)
    requires Lined(t0, n0, id, len, n, p) && NamesWithin(t0, len)
    ensures Classify(p.target, Stranger(len + n + 2)) == Newcomer
  {
    assert Strip("") == "";
    forall x | x in p.target
      ensures p.target[x].username != Xs(len + n + 2) && !HoldsContact(Stranger(len + n + 2), p.target[x])
    {
      assert x in t0 ==> |t0[x].username| <= len;
    }
    assert Named(p.target, Xs(len + n + 2)) == {};
  }

  lemma {:induction false} LineUp(env: Env, t0: Table, n0: int, id: int, len: nat, count: nat, n: nat)
    requires env.execute && IdsBelow(t0, n0) && id in t0 && Matchable(t0, id) && NamesWithin(t0, len) && n <= count
    ensures var source := TwinAndStrangers(t0[id], len, count);
            InSource(source, UpTo(n + 1))
              && Lined(t0, n0, id, len, n, PlaceAll(env, source, Start(t0, n0), UpTo(n + 1)))
  {
    hide Place, PlaceAll, Classify, Matchable, IsLeast, Lined, TwinAndStrangers, Stranger, Twin;
    var source := TwinAndStrangers(t0[id], len, count);
    StrangersAt(t0[id], len, count);
    assert UpTo(n + 1) == UpTo(n) + [n + 1];
    PlaceNext(env, source, Start(t0, n0), UpTo(n), n + 1);
    if n == 0 {
      TwinIsMatched(t0, id);
      TwinFirst(env, t0, n0, id, len);
    } else {
      var p := PlaceAll(env, source, Start(t0, n0), UpTo(n));
      LineUp(env, t0, n0, id, len, count, n - 1);
      StrangerIsNewcomer(t0, n0, id, len, n - 1, p);
      NextInLine(env, t0, n0, id, len, n - 1, p);
    }
  }

  lemma PlaceNext(env: Env, source: Table, p: Progress, ids: seq<int>, last: int)
    requires InSource(source, ids) && last in source
    ensures PlaceAll(env, source, p, ids + [last]) == Place(env, PlaceAll(env, source, p, ids), last, source[last])
    ensures PlaceAll(env, source, p, []) == p
  {
    hide Place;
    assert (ids + [last])[..|ids|] == ids;
  }

  lemma TwinFirst(env: Env, t0: Table, n0: int, id: int, len: nat)
    requires id in t0 && Classify(t0, Twin(t0[id])) == SamePerson(id)
    ensures Lined(t0, n0, id, len, 0, Place(env, Start(t0, n0), 1, Twin(t0[id])))
  {
    hide Classify, Twin;
  }

  lemma NextInLine(env: Env, t0: Table, n0: int, id: int, len: nat, n: nat, p: Progress)
    requires env.execute && Lined(t0, n0, id, len, n, p) && Classify(p.target, Stranger(len + n + 2)) == Newcomer
    ensures Lined(t0, n0, id, len, n + 1, Place(env, p, n + 2, Stranger(len + n + 2)))
  {
    hide Built, Classify, AffCode, BoundValues;
    var row := Stranger(len + n + 2);
    BuiltKeeps(env, p, row);
    var q := Place(env, p, n + 2, row);
    assert q.inserted[|p.inserted|].oldID == n + 2;
    assert NewUser(env, p, row).username == row.username;
  }

  // ---------- The cycle ----------

  /** The ids met while following inviters. */
  function Trail(t: Table, id: int, n: nat): set<int>
    decreases n
  {
    if n == 0 || id !in t then {id} else {id} + Trail(t, t[id].inviter, n - 1)
  }

  lemma {:induction false} TrailLeadsOn(t: Table, next: int, id: int, goal: int, n: nat)
    requires IdsBelow(t, next) && goal >= next && Reaches(t, id, goal, n)
    ensures id in Trail(t, id, n) && forall x <- Trail(t, id, n) ::
            x > 0 && (x == goal || (x in t && t[x].inviter in Trail(t, id, n)))
    decreases n
  {
    if n > 0 {
      TrailLeadsOn(t, next, t[id].inviter, goal, n - 1);
    }
  }

  lemma TrailIsTrapped(t0: Table, n0: int, final: Table, id: int, goal: int, n: nat)
    requires IdsBelow(t0, n0) && goal >= n0 && Reaches(t0, id, goal, n)
    requires (forall x <- t0 :: x in final && final[x] == t0[x]) && goal in final && final[goal].inviter == id
    ensures Trapped(final, Trail(t0, id, n))
  {
    hide StaysIn;
    var trail := Trail(t0, id, n);
    TrailLeadsOn(t0, n0, id, goal, n);
    assert trail != {};
    assert forall x <- trail :: x in final;
    forall x | x in trail ensures StaysIn(final, trail, x) {
      if x == goal {
        StayInside(final, trail, x);
      } else {
        assert final[x].inviter in trail;
        StayInside(final, trail, x);
      }
    }
  }

  lemma TwinLinks(row: User, len: nat)
    ensures Twin(row).inviter == 0 && Twin(row).username == row.username
    ensures forall i: nat :: Stranger(i).inviter == 1 && |Stranger(i).username| == i
  {
  }

  lemma TwinSourceIsPlain(row: User, len: nat, count: nat)
    requires |row.username| <= len
    ensures var source := TwinAndStrangers(row, len, count);
            && InSource(source, UpTo(count + 1)) && NoRepeats(UpTo(count + 1)) && NamesApart(source, UpTo(count + 1))
            && Acyclic(source)
  {
    hide Twin, Stranger;
    var source := TwinAndStrangers(row, len, count);
    StrangersAt(row, len, count);
    TwinLinks(row, len);
    hide TwinAndStrangers;
    forall i | i in source ensures EndsEventually(source, i) {
      assert Ends(source, 0, 0);
      assert source[1].inviter == 0 && Ends(source, 1, 1);
      assert i != 1 ==> source[i].inviter == 1 && Ends(source, i, 2);
    }
    EndingIsAcyclic(source);
  }

  /** A target that is not sealed: from some row that can be recognized, inviters lead to an id that a new row will
      get. Then there is a source, itself without cycles and with unique usernames, whose migration closes a cycle. */
  lemma OpenTargetClosesCycle(env: Env, t0: Table, n0: int) returns (source: Table, ids: seq<int>)
    requires env.execute && IdsBelow(t0, n0) && !Sealed(t0, n0)
    ensures InSource(source, ids) && NoRepeats(ids) && NamesApart(source, ids) && Acyclic(source)
    ensures !Acyclic(Final(source, PlaceAll(env, source, Start(t0, n0), ids)))
  {
    hide PlaceAll, Final, FollowsInviters, Trapped, NamesApart, Classify, Matchable, Acyclic, InSource, NoRepeats,
         TwinAndStrangers, Lined;
    var id :| id in t0 && Matchable(t0, id) && Ahead(t0, n0, id);
    var goal: int, n: nat :| goal >= n0 && Reaches(t0, id, goal, n);
    var len := LongestName(t0);
    var count := goal - n0 + 1;
    source, ids := TwinAndStrangers(t0[id], len, count), UpTo(count + 1);
    TwinSourceIsPlain(t0[id], len, count);
    StrangersAt(t0[id], len, count);
    LineUp(env, t0, n0, id, len, count, count);
    InvitersFollow(env, source, t0, n0, ids);
    var p := PlaceAll(env, source, Start(t0, n0), ids);
    var final := Final(source, p);
    LastPointsBack(env, source, t0, n0, p, final, id, len, count);
    TrailIsTrapped(t0, n0, final, id, goal, n);
    TrappedMeansCyclic(final, Trail(t0, id, n));
  }

  lemma TrappedMeansCyclic(t: Table, s: set<int>)
    requires Trapped(t, s)
    ensures !Acyclic(t)
  {
  }

  lemma LastPointsBack(env: Env, source: Table, t0: Table, n0: int, p: Progress, final: Table, id: int, len: nat,
      count: nat)
    requires Lined(t0, n0, id, len, count, p) && count > 0 && FollowsInviters(env, source, t0, p, final)
    requires count + 1 in source && source[count + 1].inviter == 1
    ensures n0 + count - 1 in final && final[n0 + count - 1].inviter == id
    ensures forall x <- t0 :: x in final && final[x] == t0[x]
  {
    hide InsertedIds, InviterFollows, IsCopy;
    InsertedFollows(env, source, t0, p, final, count + 1);
    FollowsMapped(source, t0, p, final, count + 1);
  }

  // ---------- The exact condition ----------

  /** This migration leaves the target without cycles. */
  ghost predicate LeavesAcyclic(env: Env, t0: Table, n0: int, source: Table, ids: seq<int>) {
    InSource(source, ids) && NoRepeats(ids) && NamesApart(source, ids) && Acyclic(source)
    ==> Acyclic(Final(source, PlaceAll(env, source, Start(t0, n0), ids)))
  }

  /** No migration of a source without cycles and with unique usernames can close a cycle in a target without cycles,
      exactly when the target is sealed. */
  lemma SealedExactly(env: Env, t0: Table, n0: int)
    requires env.execute && IdsBelow(t0, n0) && Acyclic(t0)
    ensures Sealed(t0, n0) <==> forall source: Table, ids: seq<int> :: LeavesAcyclic(env, t0, n0, source, ids)
  {
    hide PlaceAll, Final, NamesApart, Acyclic, InSource, NoRepeats, Sealed;
    if Sealed(t0, n0) {
      forall source: Table, ids: seq<int> ensures LeavesAcyclic(env, t0, n0, source, ids) {
        if InSource(source, ids) && NoRepeats(ids) && NamesApart(source, ids) && Acyclic(source) {
          AcyclicIsKept(env, source, t0, n0, ids);
        }
      }
    } else {
      var source, ids := OpenTargetClosesCycle(env, t0, n0);
      assert !LeavesAcyclic(env, t0, n0, source, ids);
    }
  }

  // ---------- One such target ----------

  lemma DanglingClasses(t0: Table, first: User, second: User)
    requires t0.Keys == {1} && t0[1].username == "a" && t0[1].phone == "1"
    requires first.username == "a" && first.phone == "1" && second.username == "b" && second.phone == "" == second.email
    ensures Classify(t0, first) == SamePerson(1) && Classify(t0, second) == Newcomer
  {
    assert Named(t0, "a") == {1} && Named(t0, "b") == {};
  }

  lemma DanglingPlaced(env: Env, source: Table, t0: Table) returns (u: User)
    requires env.execute && source.Keys == {1, 2}
    requires Classify(t0, source[1]) == SamePerson(1) && Classify(t0, source[2]) == Newcomer
    ensures var p := PlaceAll(env, source, Start(t0, 2), [1, 2]);
            p.target == t0[2 := u] && p.oldToNew == map[1 := 1, 2 := 2] && p.inserted == [Entry(2, Some(2))]
  {
    hide Built, NewUser, Classify;
    var p0 := Start(t0, 2);
    var p1 := Place(env, p0, 1, source[1]);
    assert p1.target == t0 && p1.nextID == 2 && p1.oldToNew == map[1 := 1] && p1.inserted == [];
    BuiltKeeps(env, p1, source[2]);
    u := NewUser(env, p1, source[2]);
    assert [1, 2][..1] == [1] && [1][..0] == [];
    assert PlaceAll(env, source, p0, []) == p0;
    assert PlaceAll(env, source, p0, [1]) == p1;
    assert Place(env, p1, 2, source[2]).oldToNew == map[1 := 1, 2 := 2];
  }

  lemma DanglingLinked(source: Table, t: Table)
    requires 2 in source && source[2].inviter == 1 && t.Keys == {1, 2} && t[1].inviter == 2
    ensures Trapped(Relink(source, t, [Entry(2, Some(2))], map[1 := 1, 2 := 2]), {1, 2})
  {
    assert [Entry(2, Some(2))][..0] == [];
    assert Relink(source, t, [], map[1 := 1, 2 := 2]) == t;
    var final := Relink(source, t, [Entry(2, Some(2))], map[1 := 1, 2 := 2]);
    assert final[2].inviter == 1 && final[1].inviter == 2;
  }

  /** A dangling inviter in the target can come to point at a new row and close a cycle. */
  lemma DanglingInviterClosesCycle(env: Env)
    requires env.execute
    ensures var source := map[1 := Plain("a", "1"), 2 := Plain("b", "").(inviter := 1)];
            var t0 := map[1 := Plain("a", "1").(inviter := 2)];
            Acyclic(t0) && Acyclic(source) && !Acyclic(Final(source, PlaceAll(env, source, Start(t0, 2), [1, 2])))
  {
    hide PlaceAll, Classify, Relink, StaysIn;
    var source := map[1 := Plain("a", "1"), 2 := Plain("b", "").(inviter := 1)];
    var t0 := map[1 := Plain("a", "1").(inviter := 2)];
    OneUserEnds(t0);
    TwoUsersEnd(source);
    DanglingClasses(t0, source[1], source[2]);
    var u := DanglingPlaced(env, source, t0);
    DanglingLinked(source, t0[2 := u]);
  }

  lemma OneUserEnds(t: Table)
    requires t.Keys == {1} && t[1].inviter == 2
    ensures Acyclic(t)
  {
    assert Ends(t, 2, 0) && Ends(t, 1, 1);
    EndingIsAcyclic(t);
  }

  lemma TwoUsersEnd(t: Table)
    requires t.Keys == {1, 2} && t[1].inviter == 0 && t[2].inviter == 1
    ensures Acyclic(t)
  {
    assert Ends(t, 0, 0) && Ends(t, 1, 1) && Ends(t, 2, 2);
    EndingIsAcyclic(t);
  }
}
