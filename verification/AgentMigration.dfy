/** Placing the collected users in the target database: Migrator.run and its helpers in bin/migrate_agent_users.py. */
module AgentMigration {
  import opened Options
  import opened Sets
  import opened AgentUsers

  /** The random codes drawn while some codes are in use, and the longer one that ends the search. */
  datatype Codes = Codes(draw: (set<string>, nat) -> string, fallback: set<string> -> string)

  /** `columns` are the binding columns of the target. */
  datatype Env = Env(execute: bool, columns: seq<Column>, now: int, codes: Codes)

  /** How often a code is drawn before the fallback is taken. */
  const TRIES: nat := 20

  datatype Dropped = Dropped(username: string, column: Column, value: string)

  /** A user placed in the target; the preview creates no row. */
  datatype Entry = Entry(oldID: int, created: Option<int>)

  datatype Progress = Progress(
    target: Table, nextID: int, affCodes: set<string>, claimed: set<(Column, string)>, inserted: seq<Entry>,
    same: seq<int>,
    manual: seq<int>, taken: seq<int>, oldToNew: map<int, int>, resolved: set<int>, dropped: seq<Dropped>)

  // ---------- Classification ----------

  predicate IsLeast(s: set<int>, x: int) {
    x in s && forall y <- s :: x <= y
  }

  lemma LeastExists(s: set<int>) returns (x: int)
    requires s != {}
    ensures IsLeast(s, x)
    decreases |s|
  {
    x := Member(s);
    assert s == s - {x} + {x};
    if s - {x} != {} {
      var y := LeastExists(s - {x});
      x := if x < y then x else y;
    }
  }

  /** The first row of a query: the one of the least id. */
  function Least(s: set<int>): (x: int)
    requires s != {}
    ensures IsLeast(s, x)
  {
    assert exists x :: IsLeast(s, x) by {
      var y := LeastExists(s);
    }
    var x :| IsLeast(s, x);
    x
  }

  function Named(target: Table, name: string): set<int> {
    set id | id in target && target[id].username == name
  }

  predicate SameContact(row: User, existing: User) {
    || (Strip(row.phone) != "" && Strip(row.phone) == Strip(existing.phone))
    || (Strip(row.email) != "" && Strip(row.email) == Strip(existing.email))
  }

  predicate HoldsContact(row: User, other: User) {
    other.username != row.username &&
    ((Strip(row.phone) != "" && other.phone == Strip(row.phone))
      || (Strip(row.email) != "" && other.email == Strip(row.email)))
  }

  datatype Class = SamePerson(id: int) | Manual | ContactTaken | Newcomer

  function Classify(target: Table, row: User): Class {
    if row.username != "" && Named(target, row.username) != {} then
      var id := Least(Named(target, row.username));
      if SameContact(row, target[id]) then SamePerson(id) else Manual
    else if exists id <- target :: HoldsContact(row, target[id]) then ContactTaken
    else Newcomer
  }

  // ---------- The row of a newcomer ----------

  /** What the search for an unused code ends with, after `k` tries. */
  function Drawn(codes: Codes, used: set<string>, k: nat): string
    requires k <= TRIES
    decreases TRIES - k
  {
    if k == TRIES then codes.fallback(used)
    else if codes.draw(used, k) !in used then codes.draw(used, k)
    else Drawn(codes, used, k + 1)
  }

  function AffCode(env: Env, used: set<string>, raw: string): string {
    var code := Strip(raw);
    if code != "" && code !in used then code else Drawn(env.codes, used, 0)
  }

  predicate BindingTaken(target: Table, claimed: set<(Column, string)>, col: Column, value: string) {
    (col, value) in claimed || exists id <- target :: Binding(target[id], col) == value
  }

  /** A binding that someone holds already is left empty. */
  function BoundValue(target: Table, claimed: set<(Column, string)>, row: User, col: Column): string {
    var value := Strip(Binding(row, col));
    if value == "" || BindingTaken(target, claimed, col, value) then "" else value
  }

  function BoundValues(p: Progress, row: User, columns: seq<Column>): map<Column, string> {
    map col | col in columns :: BoundValue(p.target, p.claimed, row, col)
  }

  function NewUser(env: Env, p: Progress, row: User): User {
    row.(
      inviter := 0, isDeleted := false, updatedAt := env.now, amount := 0, token := None,
      affCode := AffCode(env, p.affCodes, row.affCode),
         bindings := BoundValues(p, row, env.columns))
  }

  function NewlyClaimed(p: Progress, row: User, columns: seq<Column>): set<(Column, string)> {
    set col | col in columns && BoundValue(p.target, p.claimed, row, col) != "" ::
      (col, BoundValue(p.target, p.claimed, row, col))
  }

  function NewlyDropped(p: Progress, row: User, columns: seq<Column>): seq<Dropped> {
    if columns == [] then [] else
      var col := columns[|columns| - 1];
      var value := Strip(Binding(row, col));
      var rest := NewlyDropped(p, row, columns[..|columns| - 1]);
      if value != "" && BindingTaken(p.target, p.claimed, col, value) then rest + [Dropped(row.username, col, value)]
      else rest
  }

  /** The lists and sets after building a newcomer's row. */
  function Built(env: Env, p: Progress, row: User): Progress {
    p.(
      affCodes := p.affCodes + {AffCode(env, p.affCodes, row.affCode)},
      claimed := p.claimed + NewlyClaimed(p, row, env.columns),
       dropped := p.dropped + NewlyDropped(p, row, env.columns))
  }

  // ---------- Placing the users ----------

  function Place(env: Env, p: Progress, oldID: int, row: User): Progress {
    match Classify(p.target, row)
    case SamePerson(id) =>
      p.(same := p.same + [oldID], oldToNew := p.oldToNew[oldID := id], resolved := p.resolved + {oldID})
    case Manual => p.(manual := p.manual + [oldID])
    case ContactTaken => p.(taken := p.taken + [oldID])
    case Newcomer =>
      var q := Built(env, p, row).(resolved := p.resolved + {oldID});
      if env.execute then
        q.(
          target := p.target[p.nextID := NewUser(env, p, row)], nextID := p.nextID + 1,
          oldToNew := p.oldToNew[oldID := p.nextID],
           inserted := p.inserted + [Entry(oldID, Some(p.nextID))])
      else q.(inserted := p.inserted + [Entry(oldID, None)])
  }

  function PlaceAll(env: Env, source: Table, p: Progress, ids: seq<int>): Progress
    requires forall i :: 0 <= i < |ids| ==> ids[i] in source
  {
    if ids == [] then p else
      var last := ids[|ids| - 1];
      Place(env, PlaceAll(env, source, p, ids[..|ids| - 1]), last, source[last])
  }

  function UsedCodes(target: Table): set<string> {
    set id | id in target && target[id].affCode != "" :: target[id].affCode
  }

  function Start(target: Table, nextID: int): Progress {
    Progress(target, nextID, UsedCodes(target), {}, [], [], [], [], map[], {}, [])
  }

  // ---------- Inviters ----------

  /** The image of an inviter, or 0. */
  function Image(oldToNew: map<int, int>, inviter: int): int {
    if inviter != 0 && inviter in oldToNew then oldToNew[inviter] else 0
  }

  /** The second pass over the new rows. */
  function Relink(source: Table, target: Table, entries: seq<Entry>, oldToNew: map<int, int>): Table {
    if entries == [] then target else
      var e := entries[|entries| - 1];
      var t := Relink(source, target, entries[..|entries| - 1], oldToNew);
      if e.oldID in source && e.created.Some? && e.created.value in t && Image(oldToNew, source[e.oldID].inviter) != 0
      then t[e.created.value := t[e.created.value].(inviter := Image(oldToNew, source[e.oldID].inviter))]
      else t
  }
}
