/** Channels with several keys: controller/channel.go (ManageMultiKeys and the append mode of
    UpdateChannel) over Channel.Update and handlerMultiKeyUpdate in model/channel.go.

    A channel stores its keys as one newline-separated text and the state of each key in sparse maps
    from its index. The theorems compare every action with the same action on the dense list of
    (key, status, time, reason) that those maps stand for.
 */
module MultiKey {
  import opened Options
  import opened Seqs
  import opened Sets
  import opened Text

  const ENABLED := 1
  const MANUALLY_DISABLED := 2
  const AUTO_DISABLED := 3

  /** A stored channel row: key text, recorded key count, and the sparse maps by key index. */
  datatype State = State(
    text: string,
    size: int,
    status: map<int, int>,
    time: map<int, int>,
    reason: map<int, string>)

  function Keys(s: State): seq<string> {
    Entries(s.text, '\n')
  }

  /** A key with no recorded status is enabled. */
  function StatusAt(s: State, i: int): int {
    if i in s.status then s.status[i] else ENABLED
  }

  function At<V>(m: map<int, V>, i: int): Option<V> {
    if i in m then Some(m[i]) else None
  }

  datatype Entry = Entry(key: string, status: int, time: Option<int>, reason: Option<string>)

  /** The dense list that a key list and three sparse maps stand for. */
  function Combine(keys: seq<string>, s: State): (d: seq<Entry>)
    ensures |d| == |keys|
    ensures forall i :: 0 <= i < |keys| ==> d[i] == Entry(keys[i], StatusAt(s, i), At(s.time, i), At(s.reason, i))
  {
    if keys == [] then [] else
      var i := |keys| - 1;
      Combine(keys[..i], s) + [Entry(keys[i], StatusAt(s, i), At(s.time, i), At(s.reason, i))]
  }

  function Dense(s: State): seq<Entry> {
    Combine(Keys(s), s)
  }

  predicate Within<V>(m: map<int, V>, size: int) {
    forall i <- m :: 0 <= i < size
  }

  /** What every write of a row establishes. */
  predicate Valid(s: State) {
    s.size == |Keys(s)| && Within(s.status, s.size)
  }

  /** No time or reason is recorded past the last key. */
  predicate MarksWithin(s: State) {
    Within(s.time, s.size) && Within(s.reason, s.size)
  }

  /** The entries of a map below `size`. */
  function Below<V>(m: map<int, V>, size: int): map<int, V> {
    map i | i in m && i < size :: m[i]
  }

  method CutStatus(m: map<int, int>, size: int) returns (cut: map<int, int>)
    ensures cut == Below(m, size)
  {
    cut := m;
    var todo := m.Keys;
    while todo != {}
      invariant todo <= m.Keys
      invariant cut == map i | i in m && (i in todo || i < size) :: m[i]
      decreases todo
    {
      ghost var some := Member(todo);
      var i :| i in todo;
      if i >= size {
        cut := cut - {i};
      }
      todo := todo - {i};
    }
  }

  /** Channel.Update: an empty key text leaves the stored one in place, the size is recounted from the
      text, and only the status map is cut to it. */
  function Update(stored: State, next: State): State {
    var text := if next.text != "" then next.text else stored.text;
    var size := |Entries(text, '\n')|;
    State(text, size, Below(next.status, size), next.time, next.reason)
  }

  // ---------- Deletion: survivors keep their order and are re-indexed ----------

  function Survivors(keep: int -> bool, n: nat): (kept: seq<int>)
    ensures |kept| <= n && forall j :: 0 <= j < |kept| ==> 0 <= kept[j] < n && keep(kept[j])
  {
    if n == 0 then [] else Survivors(keep, n - 1) + (if keep(n - 1) then [n - 1] else [])
  }

  lemma PickAppend<T>(s: seq<T>, at: seq<int>, i: int)
    requires InRange(at, |s|) && 0 <= i < |s|
    ensures Pick(s, at + [i]) == Pick(s, at) + [s[i]]
  {
    assert (at + [i])[..|at|] == at;
  }

  function Reindex<V>(m: map<int, V>, kept: seq<int>): map<int, V> {
    map j | 0 <= j < |kept| && kept[j] in m :: m[kept[j]]
  }

  lemma ReindexAppend<V>(m: map<int, V>, kept: seq<int>, i: int)
    ensures Reindex(m, kept + [i]) == if i in m then Reindex(m, kept)[|kept| := m[i]] else Reindex(m, kept)
  {
    var longer := kept + [i];
    assert forall j :: 0 <= j < |kept| ==> longer[j] == kept[j];
  }

  /** The recorded statuses other than "enabled". */
  function Disabled(s: State): map<int, int> {
    map i | i in s.status && s.status[i] != ENABLED :: s.status[i]
  }

  /** The part of a map that belongs to keys that are not enabled. */
  function OfDisabled<V>(s: State, m: map<int, V>): map<int, V> {
    map i | i in m && StatusAt(s, i) != ENABLED :: m[i]
  }

  predicate InRange(at: seq<int>, n: nat) {
    forall j :: 0 <= j < |at| ==> 0 <= at[j] < n
  }

  function Pick<T>(s: seq<T>, at: seq<int>): (picked: seq<T>)
    requires InRange(at, |s|)
    ensures |picked| == |at| && forall j :: 0 <= j < |at| ==> picked[j] == s[at[j]]
  {
    if at == [] then [] else Pick(s, at[..|at| - 1]) + [s[at[|at| - 1]]]
  }

  /** The row written when only the keys at `kept` remain. `forget` drops the time and the reason of
      enabled keys, as delete_disabled_keys does and delete_key does not. */
  function Remaining(keys: seq<string>, s: State, kept: seq<int>, forget: bool): State
    requires InRange(kept, |keys|)
  {
    State(Join(Pick(keys, kept), '\n'), |kept|, Reindex(Disabled(s), kept),
          Reindex(if forget then OfDisabled(s, s.time) else s.time, kept),
          Reindex(if forget then OfDisabled(s, s.reason) else s.reason, kept))
  }

  function Except(index: int): int -> bool {
    i => i != index
  }

  function Deletable(s: State, index: int): bool {
    0 <= index < s.size && Survivors(Except(index), |Keys(s)|) != []
  }

  function DeleteStep(s: State, index: int): State {
    if !Deletable(s, index) then s
    else Update(s, Remaining(Keys(s), s, Survivors(Except(index), |Keys(s)|), false))
  }

  function NotAuto(s: State): int -> bool {
    i => StatusAt(s, i) != AUTO_DISABLED
  }

  function DeleteDisabledStep(s: State): State {
    var kept := Survivors(NotAuto(s), |Keys(s)|);
    if |kept| == |Keys(s)| then s else Update(s, Remaining(Keys(s), s, kept, true))
  }

  // ---------- Pointwise actions ----------

  function DisableStep(s: State, index: int): State {
    if 0 <= index < s.size then Update(s, s.(status := s.status[index := MANUALLY_DISABLED])) else s
  }

  function EnableStep(s: State, index: int): State {
    if 0 <= index < s.size
    then Update(s, s.(status := s.status - {index}, time := s.time - {index}, reason := s.reason - {index}))
    else s
  }

  function EnableAllStep(s: State): State {
    Update(s, s.(status := map[], time := map[], reason := map[]))
  }

  function DisableAllStep(s: State): State {
    var off := map i | 0 <= i < s.size && StatusAt(s, i) == ENABLED :: MANUALLY_DISABLED;
    if off == map[] then s else Update(s, s.(status := s.status + off))
  }

  // ---------- Editing the key text ----------

  function Seen(keys: seq<string>): set<string> {
    set k | k in keys && TrimSpace(k) != "" :: TrimSpace(k)
  }

  /** The pasted keys that are new: trimmed, not blank, and none twice. */
  function NewKeys(input: seq<string>, seen: set<string>): seq<string> {
    if input == [] then [] else
      var key := TrimSpace(input[0]);
      if key == "" || key in seen then NewKeys(input[1..], seen)
      else [key] + NewKeys(input[1..], seen + {key})
  }

  /** The keys that append mode adds are trimmed, not blank, distinct and not there yet; and every pasted
      line is blank, known, or among them. */
  lemma {:induction false} NewKeysExactlyTheNew(input: seq<string>, seen: set<string>)
    ensures var added := NewKeys(input, seen);
            && (forall k <- added :: k != "" && k !in seen && Trimmed(k))
            && (AllFree(input, '\n') ==> AllFree(added, '\n'))
            && NoRepeats(added)
            && (forall k <- input :: TrimSpace(k) == "" || TrimSpace(k) in seen || TrimSpace(k) in added)
  {
    hide TrimSpace, Trimmed;
    if input != [] {
      var key := TrimSpace(input[0]);
      var rest := if key == "" || key in seen then seen else seen + {key};
      NewKeysExactlyTheNew(input[1..], rest);
      assert input[0] in input;
      assert forall k <- input[1..] :: k in input;
      assert forall k <- input :: k == input[0] || k in input[1..];
    }
  }

  function AppendStep(s: State, input: string): State {
    if s.text == "" then Update(s, s.(text := input))
    else Update(s, s.(text := Join(Keys(s) + NewKeys(Split(input, '\n'), Seen(Keys(s))), '\n')))
  }

  function ReplaceStep(s: State, input: string): State {
    Update(s, s.(text := input))
  }

  // ---------- Automatic disabling by key (handlerMultiKeyUpdate) ----------

  /** The first index that holds the key, or 0 when none does. */
  function IndexOf(keys: seq<string>, key: string): (i: nat)
    ensures key in keys ==> i < |keys| && keys[i] == key && key !in keys[..i]
    ensures key !in keys ==> i == 0
  {
    if key !in keys then 0 else if keys[0] == key then 0 else 1 + IndexOf(keys[1..], key)
  }

  function MarkStep(s: State, key: string, status: int, why: string, now: int): State {
    if Keys(s) == [] then s else
      var i := IndexOf(Keys(s), key);
      if status == ENABLED then s.(status := s.status - {i})
      else s.(status := s.status[i := status], time := s.time[i := now], reason := s.reason[i := why])
  }

  /** Copies one entry of a sparse map to its new index, if there is one. */
  method Carry<V>(from: map<int, V>, ghost kept: seq<int>, i: int, moved: map<int, V>,
      newIndex: int)
    returns (next: map<int, V>)
    requires moved == Reindex(from, kept) && newIndex == |kept|
    ensures next == Reindex(from, kept + [i])
  {
    ReindexAppend(from, kept, i);
    next := moved;
    if i in from {
      next := next[newIndex := from[i]];
    }
  }

  /** The loop of both deletions: the keys to keep, with their entries in the three maps moved to their
      new indices. */
  method KeepWhere(keys: seq<string>, keep: int -> bool,
                   status: map<int, int>, time: map<int, int>, reason: map<int, string>)
    returns (next: State)
    ensures var kept := Survivors(keep, |keys|);
            next == State(Join(Pick(keys, kept), '\n'), |kept|, Reindex(status, kept), Reindex(time, kept),
              Reindex(reason, kept))
  {
    var remaining: seq<string> := [];
    var newStatus: map<int, int>, newTime: map<int, int>, newReason: map<int, string> := map[], map[], map[];
    ghost var kept: seq<int> := [];
    for i := 0 to |keys|
      invariant kept == Survivors(keep, i)
      invariant remaining == Pick(keys, kept)
      invariant newStatus == Reindex(status, kept)
      invariant newTime == Reindex(time, kept) && newReason == Reindex(reason, kept)
    {
      if keep(i) {
        PickAppend(keys, kept, i);
        newStatus := Carry(status, kept, i, newStatus, |remaining|);
        newTime := Carry(time, kept, i, newTime, |remaining|);
        newReason := Carry(reason, kept, i, newReason, |remaining|);
        remaining := remaining + [keys[i]];
        kept := kept + [i];
      }
    }
    next := State(Join(remaining, '\n'), |remaining|, newStatus, newTime, newReason);
  }

  /** The loop of append mode that drops blank and repeated keys. */
  method Dedupe(lines: seq<string>, known: set<string>) returns (deduped: seq<string>)
    ensures deduped == NewKeys(lines, known)
  {
    hide TrimSpace, Split;
    var seen := known;
    deduped := [];
    for i := 0 to |lines|
      invariant deduped + NewKeys(lines[i..], seen) == NewKeys(lines, known)
    {
      assert lines[i..][1..] == lines[i + 1..];
      var key := TrimSpace(lines[i]);
      if key != "" && key !in seen {
        seen := seen + {key};
        deduped := deduped + [key];
      }
    }
  }

  class Channel {
    var text: string
    var size: int
    var status: map<int, int>
    var time: map<int, int>
    var reason: map<int, string>

    function View(): State
      reads this
    {
      State(text, size, status, time, reason)
    }

    /** Writes `next` the way Channel.Update does. */
    method Persist(next: State)
      modifies this
      ensures View() == Update(old(View()), next)
    {
      hide Entries, Join;
      var keyText := next.text;
      if keyText == "" {
        keyText := text;
      }
      var keys := |Entries(keyText, '\n')|;
      var cleaned := CutStatus(next.status, keys);
      text := keyText;
      size := keys;
      status := cleaned;
      time := next.time;
      reason := next.reason;
    }

    method DisableKey(index: int) returns (ok: bool)
      modifies this
      ensures ok == (0 <= index < old(size)) && View() == DisableStep(old(View()), index)
    {
      hide Entries, Join;
      if index < 0 || index >= size {
        return false;
      }
      Persist(View().(status := status[index := MANUALLY_DISABLED]));
      return true;
    }

    method EnableKey(index: int) returns (ok: bool)
      modifies this
      ensures ok == (0 <= index < old(size)) && View() == EnableStep(old(View()), index)
    {
      hide Entries, Join;
      if index < 0 || index >= size {
        return false;
      }
      Persist(View().(status := status - {index}, time := time - {index}, reason := reason - {index}));
      return true;
    }

    method EnableAllKeys() returns (enabled: nat)
      modifies this
      ensures enabled == |old(status)| && View() == EnableAllStep(old(View()))
    {
      hide Entries, Join;
      enabled := |status|;
      Persist(View().(status := map[], time := map[], reason := map[]));
    }

    method DisableAllKeys() returns (ok: bool)
      modifies this
      ensures View() == DisableAllStep(old(View()))
      ensures ok <==> exists i :: 0 <= i < old(size) && StatusAt(old(View()), i) == ENABLED
    {
      hide Entries, Join;
      var next := status;
      ghost var off := map[];
      var disabled := 0;
      for i := 0 to if size > 0 then size else 0
        invariant off == map j | 0 <= j < i && StatusAt(View(), j) == ENABLED :: MANUALLY_DISABLED
        invariant next == status + off
        invariant disabled == 0 <==> off == map[]
      {
        var current := if i in next then next[i] else ENABLED;
        if current == ENABLED {
          next := next[i := MANUALLY_DISABLED];
          off := off[i := MANUALLY_DISABLED];
          disabled := disabled + 1;
        }
      }
      if disabled == 0 {
        assert forall i | 0 <= i < size :: i !in off;
        return false;
      }
      assert exists i :: i in off;
      Persist(View().(status := next));
      return true;
    }

    method DeleteKey(index: int) returns (ok: bool)
      modifies this
      ensures ok == Deletable(old(View()), index) && View() == DeleteStep(old(View()), index)
    {
      hide Entries, Join;
      if index < 0 || index >= size {
        return false;
      }
      var s := View();
      var keys := Keys(s);
      var next := KeepWhere(keys, Except(index), Disabled(s), s.time, s.reason);
      assert next == Remaining(keys, s, Survivors(Except(index), |keys|), false);
      if next.size == 0 {
        return false;
      }
      Persist(next);
      return true;
    }

    method DeleteDisabledKeys() returns (deleted: nat)
      modifies this
      ensures View() == DeleteDisabledStep(old(View()))
      ensures deleted == |Keys(old(View()))| - |Survivors(NotAuto(old(View())), |Keys(old(View()))|)|
    {
      hide Entries, Join;
      var s := View();
      var keys := Keys(s);
      var next := KeepWhere(keys, NotAuto(s), Disabled(s), OfDisabled(s, s.time), OfDisabled(s, s.reason));
      assert next == Remaining(keys, s, Survivors(NotAuto(s), |keys|), true);
      deleted := |keys| - next.size;
      if deleted == 0 {
        return;
      }
      Persist(next);
    }

    method AppendKeys(input: string)
      modifies this
      ensures View() == AppendStep(old(View()), input)
    {
      hide Entries, Join;
      var allKeys := input;
      if text != "" {
        var existing := Entries(text, '\n');
        var deduped := Dedupe(Split(input, '\n'), Seen(existing));
        allKeys := Join(existing + deduped, '\n');
      }
      Persist(View().(text := allKeys));
    }

    method ReplaceKeys(input: string)
      modifies this
      ensures View() == ReplaceStep(old(View()), input)
    {
      hide Entries, Join;
      Persist(View().(text := input));
    }

    /** `allOff` is the source's test for switching the whole channel off. */
    method MarkKey(key: string, newStatus: int, why: string, now: int) returns (allOff: bool)
      modifies this
      ensures View() == MarkStep(old(View()), key, newStatus, why, now)
      ensures allOff == (Keys(View()) != [] && |status| >= size)
    {
      hide Entries, Join;
      var keys := Entries(text, '\n');
      if |keys| == 0 {
        return false;
      }
      var index, i := 0, 0;
      while i < |keys|
        invariant 0 <= i <= |keys| && index == 0 && key !in keys[..i]
      {
        if keys[i] == key {
          index := i;
          break;
        }
        i := i + 1;
      }
      FirstIndex(keys, key, index);
      if newStatus == ENABLED {
        status := status - {index};
      } else {
        status := status[index := newStatus];
        reason := reason[index := why];
        time := time[index := now];
      }
      allOff := |status| >= size;
    }
  }

  lemma {:induction false} FirstIndex(keys: seq<string>, key: string, i: nat)
    requires if key in keys then i < |keys| && keys[i] == key && key !in keys[..i] else i == 0
    ensures IndexOf(keys, key) == i
  {
    if key in keys && i > 0 {
      assert keys[1..][..i - 1] == keys[..i][1..];
      FirstIndex(keys[1..], key, i - 1);
    }
  }

  // ---------- Every action is the same action on the dense list ----------

  function RemoveAt<T>(d: seq<T>, i: int): seq<T>
    requires 0 <= i < |d|
  {
    d[..i] + d[i + 1..]
  }

  /** What delete_disabled_keys should leave: the entries that are not auto-disabled, in order. */
  function DropAuto(d: seq<Entry>): seq<Entry> {
    if d == [] then [] else
      var e := d[|d| - 1];
      DropAuto(d[..|d| - 1]) +
      (if e.status == 3 then []
       else if e.status == 1 then [Entry(e.key, 1, None, None)]
       else [e])
  }

  function KeysIn(d: seq<Entry>): (keys: seq<string>)
    ensures |keys| == |d| && forall i :: 0 <= i < |d| ==> keys[i] == d[i].key
  {
    if d == [] then [] else KeysIn(d[..|d| - 1]) + [d[|d| - 1].key]
  }

  /** The entry a survivor should become. */
  function Survivor(s: State, i: int, key: string, forget: bool): Entry {
    if forget && StatusAt(s, i) == ENABLED then Entry(key, ENABLED, None, None)
    else Entry(key, StatusAt(s, i), At(s.time, i), At(s.reason, i))
  }

  /** Each survivor reads back, at its new index, with its own state. */
  ghost predicate Carried(s: State, kept: seq<int>, forget: bool, s': State)
    requires InRange(kept, |Keys(s)|)
  {
    && |Dense(s')| == |kept|
    && forall j :: 0 <= j < |kept| ==> Dense(s')[j] == Survivor(s, kept[j], Keys(s)[kept[j]], forget)
  }

  lemma RowCarries(s: State, next: State, kept: seq<int>, forget: bool, j: int)
    requires InRange(kept, |Keys(s)|) && next == Remaining(Keys(s), s, kept, forget) && 0 <= j < |kept|
    ensures var row := State(next.text, |kept|, Below(next.status, |kept|), next.time, next.reason);
            Entry(Keys(s)[kept[j]], StatusAt(row, j), At(row.time, j), At(row.reason, j))
            == Survivor(s, kept[j], Keys(s)[kept[j]], forget)
  {
    hide Entries;
  }

  lemma SurvivorKeys(s: State, kept: seq<int>, forget: bool, s': State)
    requires InRange(kept, |Keys(s)|) && Carried(s, kept, forget, s')
    ensures Keys(s') == Pick(Keys(s), kept)
  {
    hide Entries;
    assert forall j :: 0 <= j < |kept| ==> Dense(s')[j].key == Keys(s')[j];
  }

  /** Writing the survivors of a deletion and reading them back gives each survivor with its own state,
      exactly when some key survives and the first and the last survivor are not blank. */
  lemma RemainingIsCarried(s: State, kept: seq<int>, forget: bool)
    requires |kept| < |Keys(s)| && InRange(kept, |Keys(s)|)
    ensures Carried(s, kept, forget, Update(s, Remaining(Keys(s), s, kept, forget)))
       <==> kept != [] && SolidEdges(Pick(Keys(s), kept))
  {
    hide Entries;
    var keys := Keys(s);
    var survivors := Pick(keys, kept);
    var next := Remaining(keys, s, kept, forget);
    var s' := Update(s, next);
    assert AllFree(survivors, '\n') by {
      assert forall j :: 0 <= j < |kept| ==> survivors[j] in keys;
    }
    EntriesRoundTrip(survivors, '\n');
    if kept == [] {
      assert next.text == "" && s'.text == s.text;
      assert |Dense(s')| == |keys|;
    } else {
      JoinEdges(survivors, '\n');
      if SolidEdges(survivors) {
        assert Keys(s') == survivors;
        forall j | 0 <= j < |kept| ensures Dense(s')[j] == Survivor(s, kept[j], keys[kept[j]], forget) {
          RowCarries(s, next, kept, forget, j);
        }
      } else if Carried(s, kept, forget, s') {
        SurvivorKeys(s, kept, forget, s');
        assert false;
      }
    }
  }

  lemma {:induction false} SurvivorsExcept(index: int, n: nat)
    ensures var kept := Survivors(Except(index), n);
            if 0 <= index < n
            then |kept| == n - 1 && forall j :: 0 <= j < n - 1 ==> kept[j] == if j < index then j else j + 1
            else |kept| == n && forall j :: 0 <= j < n ==> kept[j] == j
  {
    if n > 0 {
      SurvivorsExcept(index, n - 1);
    }
  }

  /** delete_key is refused outside the list and for the last key, and then changes nothing. */
  lemma DeleteKeyAllowed(s: State, index: int)
    requires Valid(s)
    ensures Deletable(s, index) <==> 0 <= index < s.size && s.size > 1
    ensures !Deletable(s, index) ==> DeleteStep(s, index) == s
  {
    hide Entries, Join, Combine, Remaining, Update;
    SurvivorsExcept(index, |Keys(s)|);
  }

  /** delete_key removes one entry and moves the rest up with their own state, exactly when the removal
      leaves no blank key at either end. */
  lemma DeleteKeyRefines(s: State, index: int)
    requires Valid(s) && 0 <= index < s.size && s.size > 1
    ensures Dense(DeleteStep(s, index)) == RemoveAt(Dense(s), index) <==> SolidEdges(RemoveAt(Keys(s), index))
  {
    hide Entries, Join, Combine, Remaining, Update, Carried, Survivors, Pick, RemoveAt;
    var kept := Survivors(Except(index), |Keys(s)|);
    SurvivorsExcept(index, |Keys(s)|);
    DeletedEntries(Keys(s), s, index);
    RemainingIsCarried(s, kept, false);
    SameList(s, kept, false, DeleteStep(s, index), RemoveAt(Dense(s), index));
  }

  lemma DeletedEntries(keys: seq<string>, s: State, index: int)
    requires 0 <= index < |keys|
    ensures var kept := Survivors(Except(index), |keys|);
            var left := RemoveAt(Combine(keys, s), index);
            && Pick(keys, kept) == RemoveAt(keys, index) && |left| == |kept|
            && forall j :: 0 <= j < |kept| ==> left[j] == Survivor(s, kept[j], keys[kept[j]], false)
  {
    hide Combine, Survivors, Pick, StatusAt;
    SurvivorsExcept(index, |keys|);
    var kept := Survivors(Except(index), |keys|);
    var left, leftKeys := RemoveAt(Combine(keys, s), index), RemoveAt(keys, index);
    forall j | 0 <= j < |kept|
      ensures leftKeys[j] == keys[kept[j]] && left[j] == Combine(keys, s)[kept[j]]
    {
    }
    assert Pick(keys, kept) == leftKeys;
  }

  lemma SameList(s: State, kept: seq<int>, forget: bool, s': State, target: seq<Entry>)
    requires InRange(kept, |Keys(s)|) && |target| == |kept|
    requires forall j :: 0 <= j < |kept| ==> target[j] == Survivor(s, kept[j], Keys(s)[kept[j]], forget)
    ensures Dense(s') == target <==> Carried(s, kept, forget, s')
  {
    hide Entries;
  }

  lemma {:induction false} SurvivorsDropAuto(keys: seq<string>, s: State)
    ensures var kept := Survivors(NotAuto(s), |keys|);
            var left := DropAuto(Combine(keys, s));
            |left| == |kept| && forall j :: 0 <= j < |kept| ==> left[j] == Survivor(s, kept[j], keys[kept[j]], true)
  {
    hide DropAuto, Combine, StatusAt, At;
    if keys == [] {
      NothingDropped(s);
    } else {
      var i := |keys| - 1;
      SurvivorsDropAuto(keys[..i], s);
      LastCombined(keys, s);
      DropAutoLast(Combine(keys[..i], s), Entry(keys[i], StatusAt(s, i), At(s.time, i), At(s.reason, i)));
    }
  }

  lemma NothingDropped(s: State)
    ensures DropAuto(Combine([], s)) == []
  {
  }

  lemma DropAutoLast(d: seq<Entry>, e: Entry)
    ensures DropAuto(d + [e]) ==
            DropAuto(d) + (if e.status == 3 then [] else if e.status == 1 then [Entry(e.key, 1, None, None)] else [e])
  {
    assert (d + [e])[..|d|] == d;
  }

  lemma LastCombined(keys: seq<string>, s: State)
    requires keys != []
    ensures var i := |keys| - 1;
            Combine(keys, s) == Combine(keys[..i], s) + [Entry(keys[i], StatusAt(s, i), At(s.time, i), At(s.reason, i))]
  {
  }

  lemma {:induction false} AllSurvive(s: State, n: nat)
    ensures |Survivors(NotAuto(s), n)| == n <==> forall i :: 0 <= i < n ==> StatusAt(s, i) != AUTO_DISABLED
  {
    if n > 0 {
      AllSurvive(s, n - 1);
    }
  }

  lemma {:induction false} NoneSurvives(s: State, n: nat)
    requires forall i :: 0 <= i < n ==> StatusAt(s, i) == AUTO_DISABLED
    ensures Survivors(NotAuto(s), n) == []
  {
    if n > 0 {
      NoneSurvives(s, n - 1);
    }
  }

  predicate SomeAuto(d: seq<Entry>) {
    exists i :: 0 <= i < |d| && d[i].status == 3
  }

  lemma SomeAutoDropped(s: State)
    ensures SomeAuto(Dense(s)) <==> |Survivors(NotAuto(s), |Keys(s)|)| < |Keys(s)|
  {
    hide Entries;
    AllSurvive(s, |Keys(s)|);
    assert forall i :: 0 <= i < |Keys(s)| ==> Dense(s)[i].status == StatusAt(s, i);
  }

  /** delete_disabled_keys drops exactly the auto-disabled entries and keeps the others in order, exactly
      when some entry is left and the first and the last one left have a key; with nothing to drop it
      changes nothing. */
  lemma DeleteDisabledRefines(s: State)
    requires Valid(s)
    ensures !SomeAuto(Dense(s)) ==> DeleteDisabledStep(s) == s
    ensures SomeAuto(Dense(s)) ==>
              (Dense(DeleteDisabledStep(s)) == DropAuto(Dense(s))
               <==> DropAuto(Dense(s)) != [] && SolidEdges(KeysIn(DropAuto(Dense(s)))))
  {
    hide Entries, Join, Remaining, Update, Combine, Pick, DropAuto, KeysIn, Survivors, Carried;
    var keys := Keys(s);
    var kept := Survivors(NotAuto(s), |keys|);
    SomeAutoDropped(s);
    if SomeAuto(Dense(s)) {
      SurvivorsDropAuto(keys, s);
      RemainingIsCarried(s, kept, true);
      SameList(s, kept, true, DeleteDisabledStep(s), DropAuto(Dense(s)));
      assert Pick(keys, kept) == KeysIn(DropAuto(Dense(s)));
    }
  }

  /** When every key is auto-disabled, delete_disabled_keys deletes none of them and enables them all:
      the empty key text is not written, but the emptied maps are. */
  lemma AllAutoDisabledComeBack(s: State)
    requires Valid(s) && Keys(s) != []
    requires forall i :: 0 <= i < |Keys(s)| ==> Dense(s)[i].status == AUTO_DISABLED
    ensures Dense(DeleteDisabledStep(s)) == Enabled(Keys(s))
  {
    hide Entries, Combine, Enabled, Survivors;
    assert forall i :: 0 <= i < |Keys(s)| ==> Dense(s)[i].status == StatusAt(s, i);
    NoneSurvives(s, |Keys(s)|);
  }

  /** Disabling and enabling change one entry and no other. */
  lemma PointwiseRefines(s: State, index: int)
    requires Valid(s)
    ensures 0 <= index < |Keys(s)| ==>
              && Dense(DisableStep(s, index)) == Dense(s)[index := Dense(s)[index].(status := 2)]
              && Dense(EnableStep(s, index)) == Dense(s)[index := Entry(Keys(s)[index], 1, None, None)]
    ensures !(0 <= index < |Keys(s)|) ==> DisableStep(s, index) == s == EnableStep(s, index)
  {
    hide Entries;
  }

  /** enable_all_keys clears every mark; disable_all_keys touches exactly the enabled entries. */
  lemma AllKeysRefines(s: State, i: int)
    requires Valid(s) && 0 <= i < s.size
    ensures |Dense(EnableAllStep(s))| == |Dense(DisableAllStep(s))| == s.size
    ensures Dense(EnableAllStep(s))[i] == Entry(Keys(s)[i], 1, None, None)
    ensures Dense(DisableAllStep(s))[i] ==
            if Dense(s)[i].status == 1 then Dense(s)[i].(status := 2) else Dense(s)[i]
  {
    hide Entries;
    var off := map j | 0 <= j < s.size && StatusAt(s, j) == ENABLED :: MANUALLY_DISABLED;
    assert StatusAt(s, i) == ENABLED <==> i in off;
  }

  // ---------- Appending and replacing keys ----------

  lemma SplitFirst(s: string, sep: char)
    requires s != "" && s[0] != sep
    ensures Split(s, sep)[0] != ""
  {
  }

  lemma {:induction false} SplitLast(s: string, sep: char)
    requires s != "" && s[|s| - 1] != sep
    ensures var parts := Split(s, sep); parts[|parts| - 1] != ""
  {
    if |s| == 1 {
      SplitFirst(s, sep);
      SplitSingle(s, sep);
    } else {
      SplitLast(s[1..], sep);
      var rest, parts := Split(s[1..], sep), Split(s, sep);
      assert parts == if s[0] == sep then [""] + rest else [[s[0]] + rest[0]] + rest[1..];
      hide Split;
      if s[0] != sep && |rest| == 1 {
        assert parts == [[s[0]] + rest[0]];
      } else {
        assert parts[|parts| - 1] == rest[|rest| - 1];
      }
    }
  }

  lemma StoredEdges(text: string)
    requires text != ""
    ensures Entries(text, '\n') == [""] || SolidEdges(Entries(text, '\n'))
  {
    var trimmed := TrimSep(text, '\n');
    if trimmed != "" {
      SplitFirst(trimmed, '\n');
      SplitLast(trimmed, '\n');
    }
  }

  function Added(s: State, input: string): seq<string> {
    NewKeys(Split(input, '\n'), Seen(Keys(s)))
  }

  function Enabled(keys: seq<string>): (d: seq<Entry>)
    ensures |d| == |keys| && forall i :: 0 <= i < |keys| ==> d[i] == Entry(keys[i], ENABLED, None, None)
  {
    if keys == [] then [] else Enabled(keys[..|keys| - 1]) + [Entry(keys[|keys| - 1], ENABLED, None, None)]
  }

  lemma AppendedText(text: string, added: seq<string>)
    requires text != "" && AllFree(added, '\n') && forall k <- added :: k != ""
    ensures var keys, joined := Entries(text, '\n'), Join(Entries(text, '\n') + added, '\n');
            if keys != [""] then joined != "" && Entries(joined, '\n') == keys + added
            else if added == [] then joined == ""
            else joined != "" && Entries(joined, '\n') != keys + added
  {
    hide Entries;
    var keys := Entries(text, '\n');
    var all := keys + added;
    StoredEdges(text);
    assert AllFree(all, '\n');
    EntriesRoundTrip(all, '\n');
    JoinEdges(all, '\n');
    assert all[0] == keys[0];
    if added == [] {
      assert all == keys;
    } else {
      assert all[|all| - 1] == added[|added| - 1] && added[|added| - 1] in added;
    }
  }

  /** Nothing is recorded for the `n` indices after the last key. */
  predicate Unmarked(s: State, n: nat) {
    forall i :: s.size <= i < s.size + n ==> i !in s.time && i !in s.reason
  }

  lemma AppendDense(s: State, added: seq<string>)
    requires Valid(s) && s.text != ""
    requires AllFree(added, '\n') && forall k <- added :: k != ""
    ensures Dense(Update(s, s.(text := Join(Keys(s) + added, '\n')))) == Dense(s) + Enabled(added)
       <==> (Keys(s) != [""] || added == []) && Unmarked(s, |added|)
  {
    hide Entries, Join, Combine, Enabled, Dense, Below, Unmarked;
    var s' := Update(s, s.(text := Join(Keys(s) + added, '\n')));
    AppendedText(s.text, added);
    if Keys(s) == [""] && added != [] {
      OtherKeys(s, s', added);
    } else {
      assert Keys(s') == Keys(s) + added;
      AppendedEntries(s, s', added);
    }
  }

  lemma OtherKeys(s: State, s': State, added: seq<string>)
    requires Keys(s') != Keys(s) + added
    ensures Dense(s') != Dense(s) + Enabled(added)
  {
    hide Entries, Combine, Enabled;
    DenseKeys(s', Dense(s) + Enabled(added), Keys(s) + added);
  }

  lemma AppendedEntries(s: State, s': State, added: seq<string>)
    requires Valid(s) && Keys(s') == Keys(s) + added && s'.time == s.time && s'.reason == s.reason
    requires s'.status == Below(s.status, |Keys(s')|)
    ensures Dense(s') == Dense(s) + Enabled(added) <==> Unmarked(s, |added|)
  {
    hide Entries, Combine, Enabled, Dense;
    var d, e := Dense(s'), Dense(s) + Enabled(added);
    assert |d| == |e| == s.size + |added| by {
      AppendedLength(s, s', added);
    }
    forall i | 0 <= i < |d| ensures d[i] == e[i] <==> i < s.size || (i !in s.time && i !in s.reason) {
      AppendedEntry(s, s', added, i);
    }
    if Unmarked(s, |added|) {
      assert d == e;
    } else {
      var i :| s.size <= i < s.size + |added| && (i in s.time || i in s.reason);
      assert d[i] != e[i];
    }
  }

  lemma AppendedLength(s: State, s': State, added: seq<string>)
    requires Valid(s) && Keys(s') == Keys(s) + added
    ensures |Dense(s')| == |Dense(s) + Enabled(added)| == s.size + |added|
  {
    hide Entries, Combine, Enabled;
  }

  lemma AppendedEntry(s: State, s': State, added: seq<string>, i: int)
    requires Valid(s) && Keys(s') == Keys(s) + added && s'.time == s.time && s'.reason == s.reason
    requires s'.status == Below(s.status, |Keys(s')|)
    requires 0 <= i < |Dense(s')|
    ensures |Dense(s')| == |Dense(s) + Enabled(added)|
    ensures Dense(s')[i] == (Dense(s) + Enabled(added))[i] <==> i < s.size || (i !in s.time && i !in s.reason)
  {
    hide Entries, Combine, Enabled;
  }

  /** Append mode keeps every old entry with its state and adds the new keys, enabled, at the end, exactly when the
      stored text is more than line breaks or nothing is added, and no mark was left behind where the new keys go. */
  lemma AppendRefines(s: State, input: string)
    requires Valid(s) && s.text != ""
    ensures Dense(AppendStep(s, input)) == Dense(s) + Enabled(Added(s, input))
       <==> (Keys(s) != [""] || Added(s, input) == []) && Unmarked(s, |Added(s, input)|)
  {
    hide Entries, Join, Dense;
    NewKeysExactlyTheNew(Split(input, '\n'), Seen(Keys(s)));
    AppendDense(s, Added(s, input));
  }

  /** On a row without keys, append mode stores the pasted text as it is, like replace mode. */
  lemma AppendToNothing(s: State, input: string)
    requires Valid(s) && s.text == "" && MarksWithin(s)
    ensures Dense(AppendStep(s, input)) == Enabled(Entries(input, '\n'))
  {
    hide Entries;
    assert Entries("", '\n') == [] by {
      NoEntries();
    }
  }

  lemma NoEntries()
    ensures Entries("", '\n') == []
  {
  }

  lemma DenseKeys(s: State, target: seq<Entry>, keys: seq<string>)
    requires |target| == |keys| && forall j :: 0 <= j < |keys| ==> target[j].key == keys[j]
    ensures Dense(s) == target ==> Keys(s) == keys
  {
    hide Entries;
    if Dense(s) == target {
      assert forall j :: 0 <= j < |keys| ==> Keys(s)[j] == Dense(s)[j].key;
    }
  }

  /** Replacing the key text keeps the recorded size right, but recorded times and reasons stay inside
      the new list only if they already fitted in it. */
  lemma ReplaceKeepsMarks(s: State, input: string)
    requires Valid(s) && MarksWithin(s) && input != ""
    ensures MarksWithin(ReplaceStep(s, input)) <==>
            forall i :: i in s.time || i in s.reason ==> i < |Entries(input, '\n')|
  {
  }

  /** What a mark left behind does: the reason one key was disabled for shows up on another key. */
  lemma StaleReasonMoves(now: int)
    ensures var s0 := State("a\nb", 2, map[1 := AUTO_DISABLED], map[1 := now], map[1 := "quota"]);
            var s1 := DisableStep(AppendStep(ReplaceStep(s0, "a"), "c"), 1);
            Valid(s0) && MarksWithin(s0) && Dense(s1)[1..] == [Entry("c", MANUALLY_DISABLED, Some(now), Some("quota"))]
  {
    hide Entries, Join, TrimSpace;
    TwoKeys("a", "b");
    TwoKeys("a", "c");
    assert "a" + "\n" + "b" == "a\nb" && "a" + "\n" + "c" == "a\nc";
    assert NewKeys(["c"], {"a"}) == ["c"] by {
      assert ["c"][1..] == [];
    }
    var s0 := State("a\nb", 2, map[1 := AUTO_DISABLED], map[1 := now], map[1 := "quota"]);
    var replaced := ReplaceStep(s0, "a");
    assert replaced == State("a", 1, map[], map[1 := now], map[1 := "quota"]);
    assert Seen(["a"]) == {"a"};
    assert AppendStep(replaced, "c") == State("a\nc", 2, map[], map[1 := now], map[1 := "quota"]);
    var s1 := DisableStep(AppendStep(replaced, "c"), 1);
    assert s1 == State("a\nc", 2, map[1 := MANUALLY_DISABLED], map[1 := now], map[1 := "quota"]);
    assert Dense(s1)[1..] == [Dense(s1)[1]];
  }

  lemma TwoKeys(first: string, second: string)
    requires |first| == |second| == 1 && Trimmed(first) && Trimmed(second) && '\n' !in first + second
    ensures Entries(first, '\n') == Split(first, '\n') == [first]
    ensures TrimSpace(first) == first && TrimSpace(second) == second
    ensures Split(second, '\n') == [second]
    ensures Entries(first + "\n" + second, '\n') == [first, second]
    ensures Join([first] + [second], '\n') == first + "\n" + second
  {
    assert [first] + [second] == [first, second];
    SplitSingle(first, '\n');
    SplitSingle(second, '\n');
    EntriesRoundTrip([first], '\n');
    EntriesRoundTrip([first, second], '\n');
    assert "\n" == ['\n'];
  }

  // ---------- Whole runs ----------

  datatype Action =
    | Disable(index: int) | Enable(index: int) | EnableAll | DisableAll
    | Delete(index: int) | DeleteDisabled
    | Append(input: string) | Replace(input: string)
    | Mark(key: string, status: int, why: string, now: int)

  function Step(s: State, a: Action): State {
    match a
    case Disable(i) => DisableStep(s, i)
    case Enable(i) => EnableStep(s, i)
    case EnableAll => EnableAllStep(s)
    case DisableAll => DisableAllStep(s)
    case Delete(i) => DeleteStep(s, i)
    case DeleteDisabled => DeleteDisabledStep(s)
    case Append(input) => AppendStep(s, input)
    case Replace(input) => ReplaceStep(s, input)
    case Mark(key, status, why, now) => MarkStep(s, key, status, why, now)
  }

  function Run(s: State, actions: seq<Action>): State
    decreases |actions|
  {
    if actions == [] then s else Run(Step(s, actions[0]), actions[1..])
  }

  /** The status map records only keys that are not enabled. */
  predicate Sparse(s: State) {
    forall i <- s.status :: s.status[i] != ENABLED
  }

  lemma StepKeepsValid(s: State, a: Action)
    requires Valid(s)
    ensures Valid(Step(s, a))
    ensures Sparse(s) ==> Sparse(Step(s, a))
  {
    hide Entries;
  }

  /** In every reachable row the recorded size is the number of keys and every recorded status belongs to
      one of them. */
  lemma {:induction false} ReachableRowsAreValid(s: State, actions: seq<Action>)
    requires Valid(s)
    ensures Valid(Run(s, actions))
    ensures Sparse(s) ==> Sparse(Run(s, actions))
    decreases |actions|
  {
    if actions != [] {
      StepKeepsValid(s, actions[0]);
      ReachableRowsAreValid(Step(s, actions[0]), actions[1..]);
    }
  }

  /** How many keys are read back after `parts` were stored: blank ones at the ends are lost, and a blank text leaves
      the keys `before` in place. */
  function StoredSize(parts: seq<string>, before: int): int {
    if parts == [] || parts == [""] then before else |TrimEdges(parts)|
  }

  /** Every time and reason that the survivors take along has a key. */
  ghost predicate CarriedFit(s: State, kept: seq<int>, forget: bool)
    requires InRange(kept, |Keys(s)|)
  {
    var size := StoredSize(Pick(Keys(s), kept), |Keys(s)|);
    forall j :: 0 <= j < |kept| && (kept[j] in s.time || kept[j] in s.reason) ==>
      j < size || (forget && StatusAt(s, kept[j]) == ENABLED)
  }

  /** The action does not shorten the key list under marks that it keeps. */
  ghost predicate KeepsRoom(s: State, a: Action) {
    match a
    case Delete(i) => Deletable(s, i) ==> CarriedFit(s, Survivors(Except(i), |Keys(s)|), false)
    case DeleteDisabled =>
      var kept := Survivors(NotAuto(s), |Keys(s)|);
      |kept| < |Keys(s)| ==> CarriedFit(s, kept, true)
    case Replace(input) => input != "" ==> forall i :: i in s.time || i in s.reason ==> i < |Entries(input, '\n')|
    case _ => true
  }

  lemma SizeOfRemaining(s: State, kept: seq<int>, forget: bool)
    requires InRange(kept, |Keys(s)|)
    ensures Update(s, Remaining(Keys(s), s, kept, forget)).size == StoredSize(Pick(Keys(s), kept), |Keys(s)|)
  {
    hide Entries, Join, Reindex, Below, TrimEdges;
    var parts := Pick(Keys(s), kept);
    assert AllFree(parts, '\n') by {
      assert forall j :: 0 <= j < |kept| ==> parts[j] in Keys(s);
    }
    EntriesOfJoin(parts, '\n');
    NothingJoined();
    if parts != [] {
      JoinEdges(parts, '\n');
    }
  }

  lemma NothingJoined()
    ensures Join([], '\n') == ""
  {
  }

  lemma DeleteKeepsMarks(s: State, kept: seq<int>, forget: bool)
    requires InRange(kept, |Keys(s)|)
    ensures MarksWithin(Update(s, Remaining(Keys(s), s, kept, forget))) <==> CarriedFit(s, kept, forget)
  {
    hide Entries, Join, Pick, StoredSize;
    SizeOfRemaining(s, kept, forget);
    var next, size := Remaining(Keys(s), s, kept, forget), StoredSize(Pick(Keys(s), kept), |Keys(s)|);
    ReindexWithin(if forget then OfDisabled(s, s.time) else s.time, kept, size);
    ReindexWithin(if forget then OfDisabled(s, s.reason) else s.reason, kept, size);
  }

  lemma ReindexWithin<V>(m: map<int, V>, kept: seq<int>, size: int)
    ensures Within(Reindex(m, kept), size) <==> forall j :: 0 <= j < |kept| && kept[j] in m ==> j < size
  {
    forall j | 0 <= j < |kept| && kept[j] in m ensures j in Reindex(m, kept) {
    }
  }

  lemma SolidFits(s: State, kept: seq<int>, forget: bool)
    requires InRange(kept, |Keys(s)|) && SolidEdges(Pick(Keys(s), kept))
    ensures CarriedFit(s, kept, forget)
  {
    hide Entries, Pick;
  }

  lemma AppendKeepsMarks(s: State, added: seq<string>)
    requires Valid(s) && MarksWithin(s) && s.text != ""
    requires AllFree(added, '\n') && forall k <- added :: k != ""
    ensures MarksWithin(Update(s, s.(text := Join(Keys(s) + added, '\n'))))
  {
    hide Entries, Join;
    AppendedText(s.text, added);
    if Keys(s) == [""] && added != [] {
      assert Entries(Join(Keys(s) + added, '\n'), '\n') != [];
    }
  }

  /** An action leaves no mark past the last key exactly when it keeps room for the marks. */
  lemma StepKeepsMarks(s: State, a: Action)
    requires Valid(s) && MarksWithin(s)
    ensures MarksWithin(Step(s, a)) <==> KeepsRoom(s, a)
  {
    hide Entries, Join, Remaining, NewKeys, Update, Combine, Pick, Survivors, CarriedFit, MarksWithin;
    var keys := Keys(s);
    if a.Delete? && Deletable(s, a.index) {
      DeleteKeepsMarks(s, Survivors(Except(a.index), |keys|), false);
    } else if a.DeleteDisabled? {
      FewerSurvive(s);
      if |Survivors(NotAuto(s), |keys|)| < |keys| {
        DeleteKeepsMarks(s, Survivors(NotAuto(s), |keys|), true);
      }
    } else if a.Append? && s.text != "" {
      NewKeysExactlyTheNew(Split(a.input, '\n'), Seen(Keys(s)));
      AppendKeepsMarks(s, Added(s, a.input));
    } else {
      OtherKeepsMarks(s, a);
    }
  }

  lemma OtherKeepsMarks(s: State, a: Action)
    requires Valid(s) && MarksWithin(s)
    requires !a.DeleteDisabled? && !(a.Delete? && Deletable(s, a.index)) && !(a.Append? && s.text != "")
    ensures MarksWithin(Step(s, a)) <==> KeepsRoom(s, a)
  {
    hide Entries, Join, Combine, CarriedFit, Survivors;
  }

  /** No stored key is blank. */
  predicate NoBlankKey(keys: seq<string>) {
    forall i :: 0 <= i < |keys| ==> keys[i] != ""
  }

  /** Pasted texts that are stored as they are hold no blank line, and a replacement leaves room for the recorded times
      and reasons; every other action is free. */
  ghost predicate Tidy(s: State, a: Action) {
    match a
    case Replace(input) => NoBlankKey(Entries(input, '\n')) && KeepsRoom(s, a)
    case Append(input) => s.text == "" ==> NoBlankKey(Entries(input, '\n'))
    case _ => true
  }

  ghost predicate TidyRun(s: State, actions: seq<Action>)
    decreases |actions|
  {
    actions == [] || (Tidy(s, actions[0]) && TidyRun(Step(s, actions[0]), actions[1..]))
  }

  lemma SolidPick(keys: seq<string>, kept: seq<int>)
    requires NoBlankKey(keys) && InRange(kept, |keys|)
    ensures NoBlankKey(Pick(keys, kept)) && SolidEdges(Pick(keys, kept))
  {
  }

  lemma DeletionKeepsSolid(s: State, kept: seq<int>, forget: bool)
    requires NoBlankKey(Keys(s)) && |kept| < |Keys(s)| && InRange(kept, |Keys(s)|)
    ensures var s' := Update(s, Remaining(Keys(s), s, kept, forget)); NoBlankKey(Keys(s')) && MarksWithin(s')
  {
    hide Entries, Join, Pick, Carried, MarksWithin, Reindex, CarriedFit;
    SolidPick(Keys(s), kept);
    SolidFits(s, kept, forget);
    DeleteKeepsMarks(s, kept, forget);
    if kept == [] {
      NothingPicked(Keys(s));
    } else {
      RemainingIsCarried(s, kept, forget);
      SurvivorKeys(s, kept, forget, Update(s, Remaining(Keys(s), s, kept, forget)));
    }
  }

  lemma NothingPicked(keys: seq<string>)
    ensures Join(Pick(keys, []), '\n') == ""
  {
  }

  lemma AppendKeepsSolid(s: State, input: string)
    requires Valid(s) && MarksWithin(s) && NoBlankKey(Keys(s)) && Tidy(s, Append(input))
    ensures NoBlankKey(Keys(AppendStep(s, input))) && MarksWithin(AppendStep(s, input))
  {
    hide Entries, Join, NewKeys, MarksWithin, Seen;
    if s.text == "" {
      NoEntries();
      OtherKeepsMarks(s, Append(input));
    } else {
      var added := Added(s, input);
      NewKeysExactlyTheNew(Split(input, '\n'), Seen(Keys(s)));
      assert forall i :: 0 <= i < |added| ==> added[i] in added;
      AppendKeepsMarks(s, added);
      AppendedText(s.text, added);
      assert Keys(s) != [] ==> Keys(s)[0] != "";
      assert Keys(AppendStep(s, input)) == Keys(s) + added;
    }
  }

  lemma StepKeepsSolid(s: State, a: Action)
    requires Valid(s) && MarksWithin(s) && NoBlankKey(Keys(s)) && Tidy(s, a)
    ensures NoBlankKey(Keys(Step(s, a))) && MarksWithin(Step(s, a))
  {
    hide Entries, Join, Remaining, AppendStep, MarksWithin, NoBlankKey, Survivors;
    if a.Delete? && Deletable(s, a.index) {
      SurvivorsExcept(a.index, |Keys(s)|);
      DeletionKeepsSolid(s, Survivors(Except(a.index), |Keys(s)|), false);
    } else if a.DeleteDisabled? {
      var kept := Survivors(NotAuto(s), |Keys(s)|);
      SurvivorsDropAuto(Keys(s), s);
      if |kept| != |Keys(s)| {
        FewerSurvive(s);
        DeletionKeepsSolid(s, kept, true);
      }
    } else if a.Append? {
      AppendKeepsSolid(s, a.input);
    } else if !a.Delete? {
      OtherKeepsMarks(s, a);
    }
  }

  lemma FewerSurvive(s: State)
    ensures |Survivors(NotAuto(s), |Keys(s)|)| <= |Keys(s)| && InRange(Survivors(NotAuto(s), |Keys(s)|), |Keys(s)|)
  {
    hide Entries;
  }

  /** In every reachable row all three maps stay inside the key list, as long as no stored key is blank and no
      replacement is too short for the times and reasons on record. */
  lemma {:induction false} ReachableMarksWithin(s: State, actions: seq<Action>)
    requires Valid(s) && MarksWithin(s) && NoBlankKey(Keys(s)) && TidyRun(s, actions)
    ensures Valid(Run(s, actions)) && MarksWithin(Run(s, actions)) && NoBlankKey(Keys(Run(s, actions)))
    decreases |actions|
  {
    hide Step, Valid, MarksWithin, NoBlankKey, Keys, Tidy;
    if actions != [] {
      StepKeepsValid(s, actions[0]);
      StepKeepsSolid(s, actions[0]);
      ReachableMarksWithin(Step(s, actions[0]), actions[1..]);
    }
  }

  /** In particular whatever the actions on a row with keys are, if none replaces the key text. */
  lemma {:induction false} UnreplacedIsTidy(s: State, actions: seq<Action>)
    requires s.text != "" && forall i :: 0 <= i < |actions| ==> !actions[i].Replace?
    ensures TidyRun(s, actions)
    decreases |actions|
  {
    hide Entries;
    if actions != [] {
      TextStays(s, actions[0]);
      UnreplacedIsTidy(Step(s, actions[0]), actions[1..]);
    }
  }

  lemma TextStays(s: State, a: Action)
    requires s.text != ""
    ensures Step(s, a).text != ""
  {
    hide Entries, Join, Reindex, Pick, Survivors;
  }

  /** Blank keys are the reason for the condition: deleting the key after a blank one shortens the list by two, and a
      time recorded for the blank key is left past its end. */
  lemma BlankKeyLeavesMark(now: int)
    ensures var s := State("a\n\nb", 3, map[1 := MANUALLY_DISABLED], map[1 := now], map[]);
            Valid(s) && MarksWithin(s) && Deletable(s, 2) && !MarksWithin(DeleteStep(s, 2))
  {
    hide Entries, Join;
    var s := State("a\n\nb", 3, map[1 := MANUALLY_DISABLED], map[1 := now], map[]);
    BlankInside();
    SurvivorsExcept(2, 3);
    var kept := Survivors(Except(2), 3);
    assert kept == [0, 1];
    RemainingOfBlank(s, kept);
    var next := Remaining(Keys(s), s, kept, false);
    hide Remaining, Survivors;
    assert DeleteStep(s, 2) == Update(s, next);
    assert 1 in DeleteStep(s, 2).time && DeleteStep(s, 2).size == 1;
  }

  lemma RemainingOfBlank(s: State, kept: seq<int>)
    requires Keys(s) == ["a", "", "b"] && kept == [0, 1] && 1 in s.time && Join(["a", ""], '\n') == "a\n"
    ensures var next := Remaining(Keys(s), s, kept, false); next.text == "a\n" && 1 in next.time
  {
    hide Entries, Join;
    assert Pick(Keys(s), kept) == ["a", ""] by {
      var picked := Pick(Keys(s), kept);
      assert |picked| == 2 && picked[0] == "a" && picked[1] == "";
    }
  }

  lemma BlankInside()
    ensures Entries("a\n\nb", '\n') == ["a", "", "b"] && Entries("a\n", '\n') == ["a"] && Join(["a", ""], '\n') == "a\n"
  {
    hide Entries;
    var parts := ["a", "", "b"];
    assert parts[1..] == ["", "b"] && parts[1..][1..] == ["b"] && ["a", ""][1..] == [""];
    assert Join(["", "b"], '\n') == "\nb" && Join(parts, '\n') == "a\n\nb";
    EntriesRoundTrip(parts, '\n');
    assert Entries("a\n", '\n') == Split("a", '\n') by {
      TrailingBreak();
    }
    SplitSingle("a", '\n');
  }

  lemma TrailingBreak()
    ensures Entries("a\n", '\n') == Split("a", '\n')
  {
    assert "a\n"[..1] == "a";
  }

  lemma {:induction false} InitialRange(n: nat, m: set<int>)
    requires forall i <- m :: 0 <= i < n
    ensures |m| <= n
    ensures |m| == n <==> forall i :: 0 <= i < n ==> i in m
  {
    if n == 0 {
      if m != {} {
        var i := Member(m);
        assert false;
      }
    } else {
      InitialRange(n - 1, m - {n - 1});
      assert n - 1 in m ==> |m - {n - 1}| == |m| - 1;
      assert n - 1 !in m ==> m - {n - 1} == m;
      assert forall i :: 0 <= i < n - 1 ==> (i in m - {n - 1} <==> i in m);
    }
  }

  /** The source's count test for switching the channel off means what it should: no key is enabled. */
  lemma AllOffMeansNoneEnabled(s: State)
    requires Valid(s) && Sparse(s)
    ensures |s.status| >= s.size <==> forall i :: 0 <= i < |Dense(s)| ==> Dense(s)[i].status != ENABLED
  {
    hide Entries;
    var d := Dense(s);
    InitialRange(s.size, s.status.Keys);
    assert forall i :: 0 <= i < s.size ==> (d[i].status != ENABLED <==> i in s.status.Keys);
  }

  /** Automatic disabling hits the first entry with that key, and entry 0 when no entry has it; automatic enabling the
      same one, which keeps its time and reason. */
  lemma MarkRefines(s: State, key: string, status: int, why: string, now: int)
    requires Valid(s) && Keys(s) != []
    ensures var i := IndexOf(Keys(s), key);
            && i < |Keys(s)|
            && (key in Keys(s) ==> Keys(s)[i] == key && key !in Keys(s)[..i])
            && (key !in Keys(s) ==> i == 0)
            && Dense(MarkStep(s, key, status, why, now)) ==
              Dense(s)[i := if status == 1 then Dense(s)[i].(status := 1)
                            else Entry(Keys(s)[i], status, Some(now), Some(why))]
  {
    hide Entries;
  }
}
