/** Selecting the agents and everyone they invited, directly or not: Migrator.collect_user_ids in
    bin/migrate_agent_users.py. */
module AgentTree {
  import opened Options
  import opened Sets
  import opened AgentUsers

  datatype Selection = Selection(cutoff: Option<int>, includeDeleted: bool)

  predicate Eligible(sel: Selection, u: User) {
    sel.includeDeleted || !u.isDeleted
  }

  predicate IsAgent(sel: Selection, u: User) {
    && u.isDistributor
    && (sel.cutoff.Some? ==> u.createdAt.Some? && u.createdAt.value < sel.cutoff.value)
    && Eligible(sel, u)
  }

  function Agents(sel: Selection, source: Table): set<int> {
    set id | id in source && IsAgent(sel, source[id])
  }

  /** The eligible users that someone of `ids` invited. */
  function Invited(sel: Selection, source: Table, ids: set<int>): set<int> {
    set id | id in source && source[id].inviter in ids && Eligible(sel, source[id])
  }

  /** Who is selected: distributors created before the cutoff, if there is one, and not deleted unless deleted users are
      wanted. */
  lemma AgentsExactly(sel: Selection, source: Table, id: int)
    ensures id in Agents(sel, source) <==>
            && id in source && source[id].isDistributor && (source[id].isDeleted ==> sel.includeDeleted)
            && (sel.cutoff.None? || exists time :: source[id].createdAt == Some(time) && time < sel.cutoff.value)
  {
  }

  /** Who was invited: users that name one of the ids, and not deleted unless deleted users are wanted. */
  lemma InvitedExactly(sel: Selection, source: Table, ids: set<int>, id: int)
    ensures id in Invited(sel, source, ids) <==>
            id in source && source[id].inviter in ids && (source[id].isDeleted ==> sel.includeDeleted)
  {
  }

  /** Nobody outside the set was invited by a member; id 0 invites nobody. */
  predicate Closed(sel: Selection, source: Table, ids: set<int>) {
    Invited(sel, source, ids - {0}) <= ids
  }

  /** The least set that holds the agents and whoever its members invited. */
  ghost predicate IsInviteTree(sel: Selection, source: Table, ids: set<int>) {
    && Agents(sel, source) <= ids
    && Closed(sel, source, ids)
    && forall other: set<int> :: Agents(sel, source) <= other && Closed(sel, source, other) ==> ids <= other
  }

  method Listed(s: set<int>) returns (r: seq<int>)
    ensures forall x :: x in s <==> x in r
  {
    r := [];
    var todo := s;
    while todo != {}
      invariant todo <= s && forall x :: x in s <==> x in r || x in todo
      decreases |todo|
    {
      ghost var some := Member(todo);
      var x: int :| x in todo;
      r := r + [x];
      todo := todo - {x};
    }
  }

  /** One round: the invited of the frontier, queried in batches. */
  method InvitedInBatches(sel: Selection, source: Table, frontier: set<int>, size: nat) returns (found: set<int>)
    requires size >= 1
    ensures found == Invited(sel, source, frontier - {0})
  {
    hide Eligible;
    var ids := Listed(frontier - {0});
    found := {};
    var i := 0;
    while i < |ids|
      invariant 0 <= i <= |ids|
      invariant found == Invited(sel, source, set x | x in ids[..i])
    {
      var end := if i + size < |ids| then i + size else |ids|;
      var batch := set x | x in ids[i..end];
      assert ids[..end] == ids[..i] + ids[i..end];
      assert (set x | x in ids[..end]) == (set x | x in ids[..i]) + batch;
      found := found + Invited(sel, source, batch);
      i := end;
    }
    assert ids[..i] == ids;
    assert forall x :: x in ids <==> x in frontier - {0};
    assert (set x | x in ids) == frontier - {0};
  }

  /** The users found so far; those outside the frontier have been asked for their invited. */
  ghost predicate Searched(sel: Selection, source: Table, collected: set<int>, frontier: set<int>) {
    && Agents(sel, source) <= collected <= source.Keys && frontier <= collected
    && Invited(sel, source, collected - frontier - {0}) <= collected
    && forall other: set<int> :: Agents(sel, source) <= other && Closed(sel, source, other) ==> collected <= other
  }

  lemma SearchOn(sel: Selection, source: Table, collected: set<int>, frontier: set<int>, newIDs: set<int>)
    requires Searched(sel, source, collected, frontier) && newIDs == Invited(sel, source, frontier - {0}) - collected
    ensures Searched(sel, source, collected + newIDs, newIDs)
  {
    hide Eligible, IsAgent;
    forall other: set<int> | Agents(sel, source) <= other && Closed(sel, source, other) ensures newIDs <= other {
      assert Invited(sel, source, frontier - {0}) <= Invited(sel, source, other - {0});
    }
    assert collected + newIDs - newIDs == collected;
  }

  lemma Shrinks(all: set<int>, collected: set<int>, newIDs: set<int>)
    requires newIDs <= all && newIDs !! collected
    ensures |all - (collected + newIDs)| == |all - collected| - |newIDs|
  {
    assert all - (collected + newIDs) == all - collected - newIDs;
    assert newIDs <= all - collected;
  }

  /** The breadth-first search; it also ends on inviter links that run in circles. */
  method CollectUserIds(sel: Selection, source: Table, size: nat) returns (agents: set<int>, collected: set<int>)
    requires size >= 1
    ensures agents == Agents(sel, source)
    ensures collected <= source.Keys && IsInviteTree(sel, source, collected)
  {
    hide Eligible, IsAgent, Closed, Agents, Invited;
    agents := Agents(sel, source);
    collected := agents;
    var frontier := agents;
    assert Searched(sel, source, collected, frontier) by {
      NothingSearched(sel, source);
    }
    while frontier != {}
      invariant Searched(sel, source, collected, frontier)
      decreases |source.Keys - collected| + (if frontier == {} then 0 else 1)
    {
      var invited := InvitedInBatches(sel, source, frontier, size);
      var newIDs := invited - collected;
      SearchOn(sel, source, collected, frontier, newIDs);
      Shrinks(source.Keys, collected, newIDs);
      collected, frontier := collected + newIDs, newIDs;
    }
    AllSearched(sel, source, collected);
  }

  lemma NothingSearched(sel: Selection, source: Table)
    ensures Searched(sel, source, Agents(sel, source), Agents(sel, source))
  {
    hide Eligible, IsAgent;
  }

  lemma AllSearched(sel: Selection, source: Table, collected: set<int>)
    requires Searched(sel, source, collected, {})
    ensures IsInviteTree(sel, source, collected)
  {
    hide Eligible, IsAgent;
    assert collected - {} - {0} == collected - {0};
  }

  /** There is only one such set. */
  lemma InviteTreeIsUnique(sel: Selection, source: Table, a: set<int>, b: set<int>)
    requires IsInviteTree(sel, source, a) && IsInviteTree(sel, source, b)
    ensures a == b
  {
    assert a <= b && b <= a;
  }

  /** A run of invitations from an agent to a user. */
  predicate IsChain(sel: Selection, source: Table, chain: seq<int>) {
    if chain == [] then false
    else
      var last := chain[|chain| - 1];
      if |chain| == 1 then last in Agents(sel, source)
      else
        && last in source && Eligible(sel, source[last]) && source[last].inviter == chain[|chain| - 2] != 0
        && IsChain(sel, source, chain[..|chain| - 1])
  }

  ghost predicate HasChain(sel: Selection, source: Table, id: int) {
    exists chain: seq<int> :: IsChain(sel, source, chain) && chain[|chain| - 1] == id
  }

  lemma {:induction false} ChainStaysInside(sel: Selection, source: Table, ids: set<int>, chain: seq<int>)
    requires IsInviteTree(sel, source, ids) && IsChain(sel, source, chain)
    ensures chain[|chain| - 1] in ids
    decreases |chain|
  {
    hide Eligible;
    if |chain| > 1 {
      ChainStaysInside(sel, source, ids, chain[..|chain| - 1]);
      assert chain[|chain| - 1] in Invited(sel, source, ids - {0});
    }
  }

  ghost function Reached(sel: Selection, source: Table): set<int> {
    set id | id in source && HasChain(sel, source, id)
  }

  lemma ExtendChain(sel: Selection, source: Table, id: int)
    requires id in source && Eligible(sel, source[id]) && source[id].inviter != 0
             && HasChain(sel, source, source[id].inviter)
    ensures HasChain(sel, source, id)
  {
    hide Eligible, IsAgent;
    var chain :| IsChain(sel, source, chain) && chain[|chain| - 1] == source[id].inviter;
    var longer := chain + [id];
    assert longer[..|longer| - 1] == chain;
    assert IsChain(sel, source, longer);
  }

  lemma ReachedIsClosed(sel: Selection, source: Table)
    ensures Agents(sel, source) <= Reached(sel, source) && Closed(sel, source, Reached(sel, source))
  {
    hide Eligible, IsAgent, HasChain;
    forall id | id in Agents(sel, source) ensures HasChain(sel, source, id) {
      AgentHasChain(sel, source, id);
    }
    forall id | id in Invited(sel, source, Reached(sel, source) - {0}) ensures id in Reached(sel, source) {
      ExtendChain(sel, source, id);
    }
  }

  lemma AgentHasChain(sel: Selection, source: Table, id: int)
    requires id in Agents(sel, source)
    ensures HasChain(sel, source, id)
  {
    hide Eligible, IsAgent;
    assert IsChain(sel, source, [id]) && [id][|[id]| - 1] == id;
  }

  /** The collected users are exactly those that a chain of invitations links to an agent. */
  lemma TreeIsReachability(sel: Selection, source: Table, ids: set<int>, id: int)
    requires IsInviteTree(sel, source, ids)
    ensures id in ids <==> HasChain(sel, source, id)
  {
    hide Eligible, IsAgent, Closed;
    ReachedIsClosed(sel, source);
    if HasChain(sel, source, id) {
      var chain :| IsChain(sel, source, chain) && chain[|chain| - 1] == id;
      ChainStaysInside(sel, source, ids, chain);
    }
  }
}
