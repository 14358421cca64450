/** Collapsing the pre-charge, settlement, delta and refund logs of an asynchronous task into one log:
    collapseBillingSummaryLogs in controller/billing_summary_export.go. */
module BillingCollapse {
  import opened Options
  import opened Seqs
  import opened Order
  import opened Text
  import opened BillingLog

  // ---------- One task ----------

  /** What the loop over a task's logs remembers. */
  datatype Picked = Picked(base: Option<Log>, selected: Option<Log>, failedRefund: bool)

  predicate Outranks(fmt: Format, a: Log, b: Log) {
    var p, q := Priority(PhaseOf(fmt, a)), Priority(PhaseOf(fmt, b));
    p > q || (p == q && a.id > b.id)
  }

  predicate FailureRefund(fmt: Format, log: Log) {
    log.kind == Refund && PhaseOf(fmt, log) == PHASE_REFUND
  }

  function PickStep(fmt: Format, p: Picked, item: Log): Picked {
    Picked(
      if item.kind == Consume && (p.base.None? || item.id < p.base.value.id) then Some(item) else p.base,
      if p.selected.None? || Outranks(fmt, item, p.selected.value) then Some(item) else p.selected,
      p.failedRefund || FailureRefund(fmt, item))
  }

  function PickAll(fmt: Format, group: seq<Log>): Picked {
    if group == [] then Picked(None, None, false)
    else PickStep(fmt, PickAll(fmt, group[..|group| - 1]), group[|group| - 1])
  }

  /** The surviving log: the selected one, over the base's fields and dated like the base. */
  function Combine(base: Option<Log>, selected: Log): Log {
    match base
    case None => selected
    case Some(b) =>
      selected.(
        createdAt := if b.createdAt > 0 then b.createdAt else selected.createdAt,
        other := b.other + selected.other)
  }

  function Outcome(fmt: Format, p: Picked): Option<Log> {
    if p.selected.None? || (p.failedRefund && PhaseOf(fmt, p.selected.value) != PHASE_DELTA_REFUND) then None
    else Some(Combine(p.base, p.selected.value))
  }

  function CollapseTask(fmt: Format, group: seq<Log>): Option<Log> {
    Outcome(fmt, PickAll(fmt, group))
  }

  /** The log of the highest phase, the latest of equals. */
  ghost predicate Wins(fmt: Format, group: set<Log>, l: Log) {
    l in group && forall m <- group :: m == l || Outranks(fmt, l, m)
  }

  /** The earliest consumption log. */
  ghost predicate Earliest(group: set<Log>, l: Log) {
    l in group && l.kind == Consume && forall m <- group :: m.kind == Consume && m != l ==> l.id < m.id
  }

  ghost predicate Picks(fmt: Format, group: set<Log>, p: Picked) {
    && (if p.selected.None? then group == {} else Wins(fmt, group, p.selected.value))
    && (if p.base.None? then forall m <- group :: m.kind != Consume else Earliest(group, p.base.value))
    && (p.failedRefund <==> exists m <- group :: FailureRefund(fmt, m))
  }

  lemma MembersLast(s: seq<Log>)
    requires s != []
    ensures Members(s) == Members(s[..|s| - 1]) + {s[|s| - 1]}
    ensures DistinctIds(s) ==> DistinctIds(s[..|s| - 1]) && forall l <- Members(s[..|s| - 1]) :: l.id != s[|s| - 1].id
  {
    assert s == s[..|s| - 1] + [s[|s| - 1]];
  }

  lemma {:induction false} PickAllPicks(fmt: Format, group: seq<Log>)
    requires DistinctIds(group)
    ensures Picks(fmt, Members(group), PickAll(fmt, group))
  {
    hide FieldText, Priority;
    if group != [] {
      MembersLast(group);
      PickAllPicks(fmt, group[..|group| - 1]);
      PickStepPicks(fmt, Members(group[..|group| - 1]), PickAll(fmt, group[..|group| - 1]), group[|group| - 1]);
    }
  }

  lemma PickStepPicks(fmt: Format, group: set<Log>, p: Picked, item: Log)
    requires Picks(fmt, group, p) && forall l <- group :: l.id != item.id
    ensures Picks(fmt, group + {item}, PickStep(fmt, p, item))
  {
    hide FieldText, Priority;
  }

  /** A task's outcome does not depend on the order of its logs. */
  lemma PickedOnce(fmt: Format, group: set<Log>, p: Picked, q: Picked)
    requires Picks(fmt, group, p) && Picks(fmt, group, q)
    ensures p == q
  {
    hide FieldText, Priority;
  }

  // ---------- All logs ----------

  function GroupOf(fmt: Format, logs: seq<Log>, task: string): seq<Log> {
    if logs == [] then [] else
      var last := logs[|logs| - 1];
      GroupOf(fmt, logs[..|logs| - 1], task) + (if TaskOf(fmt, last) == task then [last] else [])
  }

  ghost function Tasks(fmt: Format, logs: seq<Log>): set<string> {
    set l | l in logs && TaskOf(fmt, l) != "" :: TaskOf(fmt, l)
  }

  predicate Standalone(fmt: Format, l: Log) {
    TaskOf(fmt, l) == "" && l.kind == Consume
  }

  function Singles(fmt: Format, logs: seq<Log>): seq<Log> {
    if logs == [] then [] else
      var last := logs[|logs| - 1];
      Singles(fmt, logs[..|logs| - 1]) + (if Standalone(fmt, last) then [last] else [])
  }

  lemma {:induction false} SinglesMembers(fmt: Format, logs: seq<Log>)
    ensures forall l :: l in Singles(fmt, logs) <==> l in logs && Standalone(fmt, l)
    ensures DistinctIds(logs) ==> DistinctIds(Singles(fmt, logs))
  {
    hide TaskOf;
    if logs != [] {
      var prefix, last := logs[..|logs| - 1], logs[|logs| - 1];
      SinglesMembers(fmt, prefix);
      assert logs == prefix + [last];
      var before := Singles(fmt, prefix);
      if DistinctIds(logs) {
        forall i | 0 <= i < |before| ensures before[i].id != last.id {
          assert before[i] in prefix;
        }
      }
    }
  }

  /** One of the tasks leaves this log. */
  ghost predicate Survives(fmt: Format, logs: seq<Log>, tasks: set<string>, l: Log) {
    exists task <- tasks :: CollapseTask(fmt, GroupOf(fmt, logs, task)) == Some(l)
  }

  /** What the collapsed list holds: consumption logs of no task, and one log for each surviving task. */
  ghost predicate IsKept(fmt: Format, logs: seq<Log>, l: Log) {
    (l in logs && Standalone(fmt, l)) || Survives(fmt, logs, Tasks(fmt, logs), l)
  }

  /** The order of the collapsed list. */
  predicate Before(a: Log, b: Log) {
    a.createdAt < b.createdAt || (a.createdAt == b.createdAt && a.id < b.id)
  }

  lemma BeforeIsStrict()
    ensures StrictOrder(Before)
  {
  }

  lemma {:induction false} GroupMembers(fmt: Format, logs: seq<Log>, task: string)
    ensures forall l :: l in GroupOf(fmt, logs, task) <==> l in logs && TaskOf(fmt, l) == task
    ensures DistinctIds(logs) ==> DistinctIds(GroupOf(fmt, logs, task))
  {
    hide FieldText;
    if logs != [] {
      var prefix, last := logs[..|logs| - 1], logs[|logs| - 1];
      GroupMembers(fmt, prefix, task);
      assert logs == prefix + [last];
      var before := GroupOf(fmt, prefix, task);
      if DistinctIds(logs) {
        forall i | 0 <= i < |before| ensures before[i].id != last.id {
          assert before[i] in prefix;
        }
      }
    }
  }

  /** The source of a task's surviving log. */
  lemma CollapsedFrom(fmt: Format, group: seq<Log>)
    requires DistinctIds(group) && CollapseTask(fmt, group).Some?
    ensures var l := CollapseTask(fmt, group).value;
            exists s :: s in group && s.id == l.id && Wins(fmt, Members(group), s)
  {
    hide FieldText, Priority;
    PickAllPicks(fmt, group);
  }

  /** The inner loop over one task. */
  method CollapseGroup(fmt: Format, group: seq<Log>) returns (r: Option<Log>)
    ensures r == CollapseTask(fmt, group)
  {
    hide FieldText, Priority;
    var base: Option<Log>, selected: Option<Log> := None, None;
    var failedRefund := false;
    for i := 0 to |group|
      invariant Picked(base, selected, failedRefund) == PickAll(fmt, group[..i])
    {
      assert group[..i + 1][..i] == group[..i];
      var item := group[i];
      if item.kind == Consume && (base.None? || item.id < base.value.id) {
        base := Some(item);
      }
      if PhaseOf(fmt, item) == PHASE_REFUND && item.kind == Refund {
        failedRefund := true;
      }
      if selected.None? || Outranks(fmt, item, selected.value) {
        selected := Some(item);
      }
    }
    assert group[..|group|] == group;
    if selected.None? || (failedRefund && PhaseOf(fmt, selected.value) != PHASE_DELTA_REFUND) {
      return None;
    }
    return Some(Combine(base, selected.value));
  }

  /** The grouping loop. */
  method GroupLogs(fmt: Format, logs: seq<Log>) returns (standalone: seq<Log>, groups: map<string, seq<Log>>)
    ensures standalone == Singles(fmt, logs)
    ensures groups.Keys == Tasks(fmt, logs) && forall t <- groups :: groups[t] == GroupOf(fmt, logs, t)
  {
    hide Tasks, TaskOf;
    standalone, groups := [], map[];
    TasksOfNone(fmt);
    for n := 0 to |logs|
      invariant standalone == Singles(fmt, logs[..n])
      invariant groups.Keys == Tasks(fmt, logs[..n])
      invariant forall t <- groups :: groups[t] == GroupOf(fmt, logs[..n], t)
    {
      var log := logs[n];
      assert logs[..n + 1] == logs[..n] + [log] && logs[..n + 1][..n] == logs[..n];
      TasksGrow(fmt, logs[..n], log);
      var task := TaskOf(fmt, log);
      if task == "" {
        if log.kind == Consume {
          standalone := standalone + [log];
        }
      } else {
        if task !in groups {
          NoGroup(fmt, logs[..n], task);
        }
        groups := groups[task := (if task in groups then groups[task] else []) + [log]];
      }
    }
    assert logs[..|logs|] == logs;
  }

  lemma TasksOfNone(fmt: Format)
    ensures Tasks(fmt, []) == {}
  {
  }

  lemma TasksGrow(fmt: Format, logs: seq<Log>, log: Log)
    ensures Tasks(fmt, logs + [log]) == Tasks(fmt, logs) + (if TaskOf(fmt, log) == "" then {} else {TaskOf(fmt, log)})
    ensures "" !in Tasks(fmt, logs)
  {
    hide TaskOf;
    assert forall l :: l in logs + [log] <==> l in logs || l == log;
  }

  lemma {:induction false} NoGroup(fmt: Format, logs: seq<Log>, task: string)
    requires task != "" && task !in Tasks(fmt, logs)
    ensures GroupOf(fmt, logs, task) == []
  {
    hide FieldText;
    if logs != [] {
      var prefix, last := logs[..|logs| - 1], logs[|logs| - 1];
      assert last in logs && forall l <- prefix :: l in logs;
      NoGroup(fmt, prefix, task);
    }
  }

  /** Every element stems from a log of the same id whose task is not in `todo`. */
  ghost predicate StemsFromOthers(fmt: Format, logs: seq<Log>, todo: set<string>, l: Log) {
    exists s <- logs :: s.id == l.id && TaskOf(fmt, s) !in todo
  }

  ghost predicate FreshIds(fmt: Format, logs: seq<Log>, todo: set<string>, out: seq<Log>) {
    DistinctIds(logs) ==> DistinctIds(out) && forall i :: 0 <= i < |out| ==> StemsFromOthers(fmt, logs, todo, out[i])
  }

  /** The list holds the consumption logs of no task and the survivors of the visited tasks. */
  ghost predicate Collected(fmt: Format, logs: seq<Log>, visited: set<string>, out: seq<Log>) {
    forall l :: l in out <==> (l in logs && Standalone(fmt, l)) || Survives(fmt, logs, visited, l)
  }

  /** The two loops and the sort; the tasks are visited in any order. */
  method Collapse(fmt: Format, logs: seq<Log>) returns (out: seq<Log>)
    ensures IsCollapse(fmt, logs, out)
  {
    hide CollapseTask, GroupOf, Tasks, Singles, Collected, FreshIds, IsCollapse;
    var standalone, groups := GroupLogs(fmt, logs);
    out := standalone;
    var todo := groups.Keys;
    NothingVisited(fmt, logs);
    while todo != {}
      invariant todo <= groups.Keys
      invariant Collected(fmt, logs, groups.Keys - todo, out) && FreshIds(fmt, logs, todo, out)
      decreases |todo|
    {
      var task: string :| task in todo;
      var r := CollapseGroup(fmt, groups[task]);
      VisitTask(fmt, logs, groups.Keys - todo, todo, task, out);
      if r.Some? {
        out := out + [r.value];
      }
      assert groups.Keys - todo + {task} == groups.Keys - (todo - {task});
      todo := todo - {task};
    }
    assert groups.Keys - todo == Tasks(fmt, logs);
    AllVisited(fmt, logs, out);
    out := Sort(Before, out);
  }

  /** The members and the order of a collapsed list. */
  ghost predicate IsCollapse(fmt: Format, logs: seq<Log>, out: seq<Log>) {
    && (forall l :: l in out <==> IsKept(fmt, logs, l))
    && (DistinctIds(logs) ==> Ascending(Before, out))
  }

  lemma NothingVisited(fmt: Format, logs: seq<Log>)
    ensures Collected(fmt, logs, Tasks(fmt, logs) - Tasks(fmt, logs), Singles(fmt, logs))
    ensures FreshIds(fmt, logs, Tasks(fmt, logs), Singles(fmt, logs))
  {
    hide FieldText, CollapseTask, Tasks, TaskOf;
    SinglesMembers(fmt, logs);
    BlankIsNoTask(fmt, logs);
    assert forall i :: 0 <= i < |Singles(fmt, logs)| ==> Singles(fmt, logs)[i] in logs;
  }

  lemma VisitTask(fmt: Format, logs: seq<Log>, visited: set<string>, todo: set<string>, task: string, out: seq<Log>)
    requires task in todo && Collected(fmt, logs, visited, out) && FreshIds(fmt, logs, todo, out)
    ensures var r := CollapseTask(fmt, GroupOf(fmt, logs, task));
            var next := if r.Some? then out + [r.value] else out;
            Collected(fmt, logs, visited + {task}, next) && FreshIds(fmt, logs, todo - {task}, next)
  {
    hide FieldText, CollapseTask, TaskOf, GroupOf;
    SurvivesGrows(fmt, logs, visited, task);
    var r := CollapseTask(fmt, GroupOf(fmt, logs, task));
    if r.Some? && DistinctIds(logs) {
      TaskIsNew(fmt, logs, todo, task, out, r.value);
    }
  }

  lemma AllVisited(fmt: Format, logs: seq<Log>, out: seq<Log>)
    requires Collected(fmt, logs, Tasks(fmt, logs), out) && FreshIds(fmt, logs, {}, out)
    ensures IsCollapse(fmt, logs, Sort(Before, out))
  {
    hide FieldText, CollapseTask, TaskOf, GroupOf, Tasks, Sort;
    assert forall l :: l in Sort(Before, out) <==> l in Members(Sort(Before, out));
    assert forall l :: l in out <==> l in Members(out);
    if DistinctIds(logs) {
      SortAscending(Before, out);
    }
  }

  lemma BlankIsNoTask(fmt: Format, logs: seq<Log>)
    ensures "" !in Tasks(fmt, logs)
  {
    hide TaskOf;
  }

  lemma SurvivesGrows(fmt: Format, logs: seq<Log>, tasks: set<string>, task: string)
    ensures forall l :: Survives(fmt, logs, tasks + {task}, l) <==>
                          Survives(fmt, logs, tasks, l) || CollapseTask(fmt, GroupOf(fmt, logs, task)) == Some(l)
  {
    hide CollapseTask, GroupOf;
  }

  lemma SameIdSameLog(logs: seq<Log>, a: Log, b: Log)
    requires DistinctIds(logs) && a in logs && b in logs && a.id == b.id
    ensures a == b
  {
  }

  lemma TaskIsNew(fmt: Format, logs: seq<Log>, todo: set<string>, task: string, out: seq<Log>, r: Log)
    requires DistinctIds(logs) && task in todo && CollapseTask(fmt, GroupOf(fmt, logs, task)) == Some(r)
    requires DistinctIds(out) && forall i :: 0 <= i < |out| ==> StemsFromOthers(fmt, logs, todo, out[i])
    ensures DistinctIds(out + [r])
    ensures forall i :: 0 <= i < |out + [r]| ==> StemsFromOthers(fmt, logs, todo - {task}, (out + [r])[i])
  {
    hide FieldText, CollapseTask, TaskOf, Outranks;
    GroupMembers(fmt, logs, task);
    CollapsedFrom(fmt, GroupOf(fmt, logs, task));
    var source :| source in logs && source.id == r.id && TaskOf(fmt, source) == task;
    assert StemsFromOthers(fmt, logs, todo - {task}, r);
    forall i | 0 <= i < |out| ensures out[i].id != r.id && StemsFromOthers(fmt, logs, todo - {task}, out[i]) {
      var s :| s in logs && s.id == out[i].id && TaskOf(fmt, s) !in todo;
      if s.id == source.id {
        SameIdSameLog(logs, s, source);
      }
    }
  }

  // ---------- What the list promises ----------

  lemma OneKey(fmt: Format, other: Fields, key: string)
    ensures FieldText(fmt, other, [key]) == if key in other then TrimSpace(Print(fmt, other[key])) else ""
  {
    hide TrimSpace, Print;
    assert [key][1..] == [];
  }

  /** What the group of a task holds decides its outcome. */
  lemma OutcomeOf(fmt: Format, a: seq<Log>, b: seq<Log>)
    requires DistinctIds(a) && DistinctIds(b) && Members(a) == Members(b)
    ensures CollapseTask(fmt, a) == CollapseTask(fmt, b)
  {
    hide FieldText, Outranks, Combine, Picks;
    PickAllPicks(fmt, a);
    PickAllPicks(fmt, b);
    PickedOnce(fmt, Members(a), PickAll(fmt, a), PickAll(fmt, b));
  }

  /** The collapsed list does not depend on the order of the logs, nor on the order in which the tasks are visited. */
  lemma CollapseIgnoresOrder(fmt: Format, a: seq<Log>, b: seq<Log>, x: seq<Log>, y: seq<Log>)
    requires DistinctIds(a) && DistinctIds(b) && Members(a) == Members(b)
    requires IsCollapse(fmt, a, x) && IsCollapse(fmt, b, y)
    ensures x == y
  {
    hide FieldText, CollapseTask, Standalone, TaskOf, GroupOf, Before;
    assert forall l :: l in a <==> l in Members(a);
    assert forall l :: l in b <==> l in Members(b);
    assert Tasks(fmt, a) == Tasks(fmt, b);
    forall task: string ensures CollapseTask(fmt, GroupOf(fmt, a, task)) == CollapseTask(fmt, GroupOf(fmt, b, task)) {
      GroupMembers(fmt, a, task);
      GroupMembers(fmt, b, task);
      OutcomeOf(fmt, GroupOf(fmt, a, task), GroupOf(fmt, b, task));
    }
    assert Members(x) == Members(y);
    BeforeIsStrict();
    AscendingIsUnique(Before, x, y);
  }

  /** The surviving log of a task carries the task's id and the id of the winning log. */
  lemma SurvivorKeepsTask(fmt: Format, group: seq<Log>, task: string)
    requires DistinctIds(group) && task != "" && CollapseTask(fmt, group).Some?
    requires forall l <- group :: TaskOf(fmt, l) == task
    ensures TaskOf(fmt, CollapseTask(fmt, group).value) == task
  {
    hide Outranks, TrimSpace, Print, FieldText;
    PickAllPicks(fmt, group);
    var p := PickAll(fmt, group);
    OneKey(fmt, p.selected.value.other, "task_id");
    OneKey(fmt, CollapseTask(fmt, group).value.other, "task_id");
  }

  lemma SurvivorOf(fmt: Format, logs: seq<Log>, l: Log) returns (task: string)
    requires DistinctIds(logs) && IsKept(fmt, logs, l) && !(l in logs && Standalone(fmt, l))
    ensures task in Tasks(fmt, logs) && CollapseTask(fmt, GroupOf(fmt, logs, task)) == Some(l) && TaskOf(fmt, l) == task
  {
    hide CollapseTask, TaskOf, GroupOf, Standalone;
    task :| task in Tasks(fmt, logs) && CollapseTask(fmt, GroupOf(fmt, logs, task)) == Some(l);
    GroupMembers(fmt, logs, task);
    BlankIsNoTask(fmt, logs);
    SurvivorKeepsTask(fmt, GroupOf(fmt, logs, task), task);
  }

  /** At most one log of each task is left, and the logs of no task are the consumption logs that came in. */
  lemma OneLogPerTask(fmt: Format, logs: seq<Log>, a: Log, b: Log)
    requires DistinctIds(logs) && IsKept(fmt, logs, a) && IsKept(fmt, logs, b)
    ensures TaskOf(fmt, a) == TaskOf(fmt, b) != "" ==> a == b
    ensures TaskOf(fmt, a) == "" ==> a in logs && a.kind == Consume
  {
    hide FieldText, CollapseTask, TaskOf, GroupOf;
    BlankIsNoTask(fmt, logs);
    if !(a in logs && Standalone(fmt, a)) {
      var s := SurvivorOf(fmt, logs, a);
    }
    if !(b in logs && Standalone(fmt, b)) {
      var t := SurvivorOf(fmt, logs, b);
    }
  }

  ghost predicate WinsTask(fmt: Format, logs: seq<Log>, task: string, l: Log) {
    l in logs && TaskOf(fmt, l) == task && forall m <- logs :: TaskOf(fmt, m) == task && m != l ==> Outranks(fmt, l, m)
  }

  // ---------- Which log of a task wins, by phases and ids ----------

  /** The classes of phases, from the one that wins to the one that yields; any other phase yields to all of them. */
  const CLASSES: seq<set<string>> :=
    [{"delta_charge", "delta_refund"}, {"settlement_merged"}, {"settlement_marker"}, {"pre_charge"}, {"normal", ""}]

  ghost predicate InClass(phase: string, k: nat) {
    if k < |CLASSES| then phase in CLASSES[k]
    else k == |CLASSES| && forall j :: 0 <= j < |CLASSES| ==> phase !in CLASSES[j]
  }

  /** The log is of the first class that the task has, and the latest of that class. */
  ghost predicate Leads(fmt: Format, logs: seq<Log>, task: string, l: Log, k: nat) {
    && l in logs && TaskOf(fmt, l) == task && InClass(PhaseOf(fmt, l), k)
    && forall m <- logs :: TaskOf(fmt, m) == task ==>
         && (forall j: nat :: j < k ==> !InClass(PhaseOf(fmt, m), j))
         && (InClass(PhaseOf(fmt, m), k) ==> m.id <= l.id)
  }

  lemma ClassOf(phase: string) returns (k: nat)
    ensures k <= 5 && InClass(phase, k)
    ensures forall j: nat :: j != k ==> !InClass(phase, j)
    ensures forall other: string, j: nat :: InClass(other, j) ==>
              && (k < j ==> Priority(phase) > Priority(other))
              && (k == j ==> Priority(phase) == Priority(other))
  {
    k := if phase in CLASSES[0] then 0
         else if phase in CLASSES[1] then 1
         else if phase in CLASSES[2] then 2
         else if phase in CLASSES[3] then 3
         else if phase in CLASSES[4] then 4
         else 5;
  }

  /** The winner of a task is the latest log of the first class of phases that the task has. */
  lemma WinsExactly(fmt: Format, logs: seq<Log>, task: string, l: Log)
    requires DistinctIds(logs)
    ensures WinsTask(fmt, logs, task, l) <==> exists k: nat :: Leads(fmt, logs, task, l, k)
  {
    hide FieldText, TaskOf, PhaseOf, Priority, InClass;
    if l in logs && TaskOf(fmt, l) == task {
      var k := ClassOf(PhaseOf(fmt, l));
      forall m | m in logs && TaskOf(fmt, m) == task && m != l
        ensures Outranks(fmt, l, m) <==>
                && (forall j: nat :: j < k ==> !InClass(PhaseOf(fmt, m), j))
                && (InClass(PhaseOf(fmt, m), k) ==> m.id <= l.id)
      {
        var j := ClassOf(PhaseOf(fmt, m));
        assert m.id != l.id;
      }
      if WinsTask(fmt, logs, task, l) {
        assert Leads(fmt, logs, task, l, k);
      }
      if i: nat :| Leads(fmt, logs, task, l, i) {
        assert i == k;
      }
    }
  }

  /** The surviving log of a task has the id of the latest log of the first class of phases that the task has. */
  lemma SurvivorLeads(fmt: Format, logs: seq<Log>, out: seq<Log>, l: Log, task: string)
    requires DistinctIds(logs) && IsCollapse(fmt, logs, out) && l in out && TaskOf(fmt, l) == task != ""
    ensures exists s: Log, k: nat :: Leads(fmt, logs, task, s, k) && l == s.(createdAt := l.createdAt, other := l.other)
  {
    hide FieldText, PhaseOf, Priority, TaskOf, GroupOf, Leads, Outranks, CollapseTask;
    var t := SurvivorOf(fmt, logs, l);
    var s := WinnerOf(fmt, logs, task);
    WinsExactly(fmt, logs, task, s);
    SurvivorMerges(fmt, logs, task, s, l);
  }

  lemma WinnerOf(fmt: Format, logs: seq<Log>, task: string) returns (winner: Log)
    requires DistinctIds(logs) && task in Tasks(fmt, logs)
    ensures WinsTask(fmt, logs, task, winner)
  {
    hide FieldText, PhaseOf, Priority, TaskOf, GroupOf, PickAll;
    var group := GroupOf(fmt, logs, task);
    GroupMembers(fmt, logs, task);
    PickAllPicks(fmt, group);
    assert forall m :: m in group <==> m in Members(group);
    winner := PickAll(fmt, group).selected.value;
  }

  /** A task is dropped exactly when one of its logs refunds a failure and its winning phase is not the delta refund. */
  lemma DroppedExactly(fmt: Format, logs: seq<Log>, task: string, winner: Log)
    requires DistinctIds(logs) && task != "" && WinsTask(fmt, logs, task, winner)
    ensures (exists l :: IsKept(fmt, logs, l) && TaskOf(fmt, l) == task) <==>
            || PhaseOf(fmt, winner) == "delta_refund"
            || forall m <- logs :: TaskOf(fmt, m) == task ==> !(m.kind == Refund && PhaseOf(fmt, m) == "refund")
  {
    hide FieldText, PickAll, PhaseOf, Priority, TaskOf, GroupOf, Combine;
    assert forall m :: FailureRefund(fmt, m) <==> m.kind == Refund && PhaseOf(fmt, m) == "refund";
    var group := GroupOf(fmt, logs, task);
    GroupMembers(fmt, logs, task);
    PickAllPicks(fmt, group);
    assert task in Tasks(fmt, logs);
    assert winner in group;
    var p := PickAll(fmt, group);
    assert p.selected == Some(winner) by {
      assert forall l :: l in group <==> l in Members(group);
    }
    if CollapseTask(fmt, group).Some? {
      SurvivorKeepsTask(fmt, group, task);
      assert Survives(fmt, logs, Tasks(fmt, logs), CollapseTask(fmt, group).value);
    } else {
      forall l | IsKept(fmt, logs, l) && TaskOf(fmt, l) == task ensures false {
        var t := SurvivorOf(fmt, logs, l);
      }
    }
  }

  /** The earliest consumption log of a task. */
  ghost predicate IsBase(fmt: Format, logs: seq<Log>, task: string, l: Log) {
    && l in logs && TaskOf(fmt, l) == task && l.kind == Consume
    && forall m <- logs :: TaskOf(fmt, m) == task && m.kind == Consume && m != l ==> l.id < m.id
  }

  /** The surviving log of a task is the winner, dated like the task's first charge; the winner's fields stand, and the
      first charge supplies those the winner lacks. */
  lemma SurvivorMerges(fmt: Format, logs: seq<Log>, task: string, winner: Log, l: Log)
    requires DistinctIds(logs) && task != "" && WinsTask(fmt, logs, task, winner) && IsKept(fmt, logs, l)
             && TaskOf(fmt, l) == task
    ensures l == winner.(createdAt := l.createdAt, other := l.other)
    ensures (forall m <- logs :: TaskOf(fmt, m) == task ==> m.kind != Consume) ==> l == winner
    ensures forall base :: IsBase(fmt, logs, task, base) ==>
              && l.createdAt == (if base.createdAt > 0 then base.createdAt else winner.createdAt)
              && l.other.Keys == base.other.Keys + winner.other.Keys
              && (forall key <- winner.other :: l.other[key] == winner.other[key])
              && (forall key <- base.other :: key !in winner.other ==> l.other[key] == base.other[key])
  {
    hide FieldText, PickAll, PhaseOf, Priority, TaskOf, GroupOf, FailureRefund;
    var t := SurvivorOf(fmt, logs, l);
    var group := GroupOf(fmt, logs, task);
    GroupMembers(fmt, logs, task);
    PickAllPicks(fmt, group);
    var p := PickAll(fmt, group);
    assert forall m :: m in group <==> m in Members(group);
    assert winner in group && p.selected == Some(winner);
    forall base | IsBase(fmt, logs, task, base) ensures p.base == Some(base) {
      assert base in group;
    }
  }

  // ---------- Collapsing twice ----------

  /** The winner is a refund that names no phase and takes the phase "refund" from the earliest consumption log. */
  predicate TurnsIntoRefund(fmt: Format, p: Picked) {
    && p.selected.Some? && p.base.Some? && !p.failedRefund
    && p.selected.value.kind == Refund && "billing_phase" !in p.selected.value.other
    && PhaseOf(fmt, p.base.value) == PHASE_REFUND
  }

  lemma PhaseOfCombined(fmt: Format, base: Option<Log>, selected: Log)
    ensures PhaseOf(fmt, Combine(base, selected)) ==
            if base.None? || "billing_phase" in selected.other then PhaseOf(fmt, selected) else PhaseOf(fmt, base.value)
    ensures "billing_phase" !in selected.other ==> PhaseOf(fmt, selected) == ""
  {
    hide TrimSpace, Print, FieldText;
    OneKey(fmt, selected.other, "billing_phase");
    OneKey(fmt, Combine(base, selected).other, "billing_phase");
    if base.Some? {
      OneKey(fmt, base.value.other, "billing_phase");
    }
  }

  lemma SurvivorIsRefund(fmt: Format, group: seq<Log>)
    requires DistinctIds(group) && CollapseTask(fmt, group).Some?
    ensures FailureRefund(fmt, CollapseTask(fmt, group).value) <==> TurnsIntoRefund(fmt, PickAll(fmt, group))
  {
    hide FieldText, Outranks, PhaseOf;
    PickAllPicks(fmt, group);
    var p := PickAll(fmt, group);
    PhaseOfCombined(fmt, p.base, p.selected.value);
    assert p.selected.value in Members(group);
  }

  /** A single log collapses to itself unless it refunds a failure. */
  lemma SingleLog(fmt: Format, l: Log)
    ensures CollapseTask(fmt, [l]) == if FailureRefund(fmt, l) then None else Some(l)
  {
    hide FieldText, Outranks;
    assert [l][..0] == [];
    assert PickAll(fmt, []) == Picked(None, None, false);
    assert PickAll(fmt, [l]) == PickStep(fmt, Picked(None, None, false), l);
    assert l.other + l.other == l.other;
  }

  lemma SoleMember(s: seq<Log>, l: Log)
    requires DistinctIds(s) && l in s && forall m <- s :: m == l
    ensures s == [l]
  {
    forall i | 0 <= i < |s| ensures s[i] == l {
      assert s[i] in s;
    }
    assert |s| < 2 || s[0].id != s[1].id;
  }

  lemma KeptAgain(fmt: Format, logs: seq<Log>, out: seq<Log>, l: Log)
    requires DistinctIds(logs) && IsCollapse(fmt, logs, out) && DistinctIds(out)
    ensures IsKept(fmt, out, l) <==> l in out && !(TaskOf(fmt, l) != "" && FailureRefund(fmt, l))
  {
    hide FieldText, CollapseTask, TaskOf, GroupOf, FailureRefund, DistinctIds;
    if l in out {
      OneLogPerTask(fmt, logs, l, l);
      if TaskOf(fmt, l) != "" {
        GroupOfOutput(fmt, logs, out, l);
        if IsKept(fmt, out, l) {
          var t := SurvivorOf(fmt, out, l);
        }
      }
    } else if IsKept(fmt, out, l) {
      var t := SurvivorOf(fmt, out, l);
      var m :| m in out && TaskOf(fmt, m) == t;
      BlankIsNoTask(fmt, out);
      GroupOfOutput(fmt, logs, out, m);
    }
  }

  lemma GroupOfOutput(fmt: Format, logs: seq<Log>, out: seq<Log>, l: Log)
    requires DistinctIds(logs) && IsCollapse(fmt, logs, out) && DistinctIds(out) && l in out && TaskOf(fmt, l) != ""
    ensures CollapseTask(fmt, GroupOf(fmt, out, TaskOf(fmt, l))) == if FailureRefund(fmt, l) then None else Some(l)
  {
    hide FieldText, CollapseTask, TaskOf, FailureRefund;
    var task := TaskOf(fmt, l);
    GroupMembers(fmt, out, task);
    forall m | m in GroupOf(fmt, out, task) ensures m == l {
      OneLogPerTask(fmt, logs, l, m);
    }
    SoleMember(GroupOf(fmt, out, task), l);
    SingleLog(fmt, l);
  }

  lemma OutputIdsDistinct(fmt: Format, logs: seq<Log>, out: seq<Log>)
    requires DistinctIds(logs) && IsCollapse(fmt, logs, out)
    ensures DistinctIds(out)
  {
    hide FieldText, CollapseTask, TaskOf, GroupOf;
    forall i, j | 0 <= i < j < |out| ensures out[i].id != out[j].id {
      var a := KeptFrom(fmt, logs, out[i]);
      var b := KeptFrom(fmt, logs, out[j]);
      if out[i].id == out[j].id {
        SameIdSameLog(logs, a, b);
        SameSourceSameLog(fmt, logs, out[i], out[j], a);
      }
    }
  }

  /** The log a kept log stems from: itself, or the winner of its task. */
  lemma KeptFrom(fmt: Format, logs: seq<Log>, l: Log) returns (source: Log)
    requires DistinctIds(logs) && IsKept(fmt, logs, l)
    ensures source in logs && source.id == l.id && TaskOf(fmt, source) == TaskOf(fmt, l)
  {
    hide FieldText, CollapseTask, TaskOf, GroupOf, Outranks;
    source := l;
    if !(l in logs && Standalone(fmt, l)) {
      var task := SurvivorOf(fmt, logs, l);
      GroupMembers(fmt, logs, task);
      CollapsedFrom(fmt, GroupOf(fmt, logs, task));
      source :| source in GroupOf(fmt, logs, task) && source.id == l.id;
    }
  }

  lemma SameSourceSameLog(fmt: Format, logs: seq<Log>, x: Log, y: Log, source: Log)
    requires DistinctIds(logs) && IsKept(fmt, logs, x) && IsKept(fmt, logs, y)
    requires source in logs && x.id == source.id == y.id
    requires TaskOf(fmt, source) == TaskOf(fmt, x) == TaskOf(fmt, y)
    ensures x == y
  {
    hide FieldText, CollapseTask, TaskOf, GroupOf;
    OneLogPerTask(fmt, logs, x, y);
    OneLogPerTask(fmt, logs, y, x);
    if TaskOf(fmt, x) == "" {
      SameIdSameLog(logs, x, y);
    }
  }

  /** The logs of a task: the winner is a refund that names no phase, the first charge is in the refund phase, and
      nothing refunds a failure. */
  ghost predicate DisguisedRefund(fmt: Format, logs: seq<Log>, task: string, winner: Log, base: Log) {
    && WinsTask(fmt, logs, task, winner) && winner.kind == Refund && "billing_phase" !in winner.other
    && IsBase(fmt, logs, task, base) && PhaseOf(fmt, base) == PHASE_REFUND
    && forall m <- logs :: TaskOf(fmt, m) == task ==> !FailureRefund(fmt, m)
  }

  lemma PicksOfTask(fmt: Format, logs: seq<Log>, task: string)
    requires DistinctIds(logs)
    ensures var p := PickAll(fmt, GroupOf(fmt, logs, task));
            && (forall l :: p.selected == Some(l) <==> WinsTask(fmt, logs, task, l))
            && (forall l :: p.base == Some(l) <==> IsBase(fmt, logs, task, l))
            && (p.failedRefund <==> exists m <- logs :: TaskOf(fmt, m) == task && FailureRefund(fmt, m))
  {
    hide FieldText, PickAll, PhaseOf, Priority, TaskOf, GroupOf, FailureRefund;
    var group := GroupOf(fmt, logs, task);
    GroupMembers(fmt, logs, task);
    PickAllPicks(fmt, group);
    assert forall m :: m in group <==> m in Members(group);
  }

  lemma DisguisedExactly(fmt: Format, logs: seq<Log>, task: string)
    requires DistinctIds(logs)
    ensures TurnsIntoRefund(fmt, PickAll(fmt, GroupOf(fmt, logs, task))) <==>
            exists winner, base :: DisguisedRefund(fmt, logs, task, winner, base)
  {
    hide PickAll, PhaseOf, TaskOf, GroupOf, FailureRefund, WinsTask, IsBase;
    PicksOfTask(fmt, logs, task);
    var p := PickAll(fmt, GroupOf(fmt, logs, task));
    if TurnsIntoRefund(fmt, p) {
      assert DisguisedRefund(fmt, logs, task, p.selected.value, p.base.value);
    }
    forall winner, base | DisguisedRefund(fmt, logs, task, winner, base) ensures TurnsIntoRefund(fmt, p) {
      assert p.selected == Some(winner) && p.base == Some(base);
    }
  }

  /** Collapsing a collapsed list changes nothing exactly when no task is won by a refund in disguise. */
  lemma CollapseTwice(fmt: Format, logs: seq<Log>, once: seq<Log>, twice: seq<Log>)
    requires DistinctIds(logs) && IsCollapse(fmt, logs, once) && IsCollapse(fmt, once, twice)
    ensures twice == once <==>
            forall task <- Tasks(fmt, logs), winner, base :: !DisguisedRefund(fmt, logs, task, winner, base)
  {
    hide TurnsIntoRefund, DisguisedRefund, PickAll, GroupOf, IsCollapse, Tasks;
    CollapseTwicePicks(fmt, logs, once, twice);
    forall task | task in Tasks(fmt, logs)
      ensures TurnsIntoRefund(fmt, PickAll(fmt, GroupOf(fmt, logs, task))) <==>
              exists winner, base :: DisguisedRefund(fmt, logs, task, winner, base)
    {
      DisguisedExactly(fmt, logs, task);
    }
  }

  /** The same by what the loop picks. */
  lemma CollapseTwicePicks(fmt: Format, logs: seq<Log>, once: seq<Log>, twice: seq<Log>)
    requires DistinctIds(logs) && IsCollapse(fmt, logs, once) && IsCollapse(fmt, once, twice)
    ensures twice == once <==>
            forall task <- Tasks(fmt, logs) :: !TurnsIntoRefund(fmt, PickAll(fmt, GroupOf(fmt, logs, task)))
  {
    hide FieldText, CollapseTask, TaskOf, GroupOf, FailureRefund, TurnsIntoRefund, Standalone, PickAll;
    OutputIdsDistinct(fmt, logs, once);
    forall l ensures l in twice <==> l in once && !(TaskOf(fmt, l) != "" && FailureRefund(fmt, l)) {
      KeptAgain(fmt, logs, once, l);
    }
    if forall task <- Tasks(fmt, logs) :: !TurnsIntoRefund(fmt, PickAll(fmt, GroupOf(fmt, logs, task))) {
      forall l | l in once ensures l in twice {
        if TaskOf(fmt, l) != "" && FailureRefund(fmt, l) {
          RefundSurvives(fmt, logs, l);
        }
      }
      assert Members(once) == Members(twice);
      BeforeIsStrict();
      AscendingIsUnique(Before, once, twice);
    } else {
      var task :| task in Tasks(fmt, logs) && TurnsIntoRefund(fmt, PickAll(fmt, GroupOf(fmt, logs, task)));
      var l := RefundOf(fmt, logs, task);
      assert l in once && l !in twice;
    }
  }

  lemma RefundSurvives(fmt: Format, logs: seq<Log>, l: Log)
    requires DistinctIds(logs) && IsKept(fmt, logs, l) && TaskOf(fmt, l) != "" && FailureRefund(fmt, l)
    ensures exists task <- Tasks(fmt, logs) :: TurnsIntoRefund(fmt, PickAll(fmt, GroupOf(fmt, logs, task)))
  {
    hide FieldText, CollapseTask, TaskOf, GroupOf, FailureRefund, TurnsIntoRefund, PickAll;
    var task := SurvivorOf(fmt, logs, l);
    GroupMembers(fmt, logs, task);
    SurvivorIsRefund(fmt, GroupOf(fmt, logs, task));
  }

  lemma RefundOf(fmt: Format, logs: seq<Log>, task: string) returns (l: Log)
    requires DistinctIds(logs) && task in Tasks(fmt, logs)
             && TurnsIntoRefund(fmt, PickAll(fmt, GroupOf(fmt, logs, task)))
    ensures IsKept(fmt, logs, l) && TaskOf(fmt, l) != "" && FailureRefund(fmt, l)
  {
    hide FieldText, TaskOf, GroupOf, FailureRefund, PickAll;
    var group := GroupOf(fmt, logs, task);
    GroupMembers(fmt, logs, task);
    assert CollapseTask(fmt, group).Some?;
    l := CollapseTask(fmt, group).value;
    SurvivorIsRefund(fmt, group);
    BlankIsNoTask(fmt, logs);
    SurvivorKeepsTask(fmt, group, task);
    assert Survives(fmt, logs, Tasks(fmt, logs), l);
  }

  /** When every refund of a task names its phase, collapsing is idempotent. */
  lemma NamedRefundsCollapseOnce(fmt: Format, logs: seq<Log>, once: seq<Log>, twice: seq<Log>)
    requires DistinctIds(logs) && IsCollapse(fmt, logs, once) && IsCollapse(fmt, once, twice)
    requires forall l <- logs :: l.kind == Refund && TaskOf(fmt, l) != "" ==> PhaseOf(fmt, l) != ""
    ensures twice == once
  {
    hide FieldText, TaskOf, FailureRefund, PhaseOf, Outranks, IsCollapse, IsBase;
    BlankIsNoTask(fmt, logs);
    forall task, winner, base | task in Tasks(fmt, logs) ensures !DisguisedRefund(fmt, logs, task, winner, base) {
      if winner in logs && TaskOf(fmt, winner) == task {
        PhaseOfCombined(fmt, None, winner);
      }
    }
    CollapseTwice(fmt, logs, once, twice);
  }

  lemma FieldsOfUnphased(fmt: Format, charge: Log, refund: Log)
    requires charge.other == map["task_id" := Words("t"), "billing_phase" := Words("refund")]
    requires refund.other == map["task_id" := Words("t")]
    ensures TaskOf(fmt, charge) == "t" && PhaseOf(fmt, charge) == PHASE_REFUND
    ensures TaskOf(fmt, refund) == "t" && PhaseOf(fmt, refund) == ""
  {
    hide FieldText, TrimSpace;
    OneKey(fmt, charge.other, "task_id");
    OneKey(fmt, charge.other, "billing_phase");
    OneKey(fmt, refund.other, "task_id");
    OneKey(fmt, refund.other, "billing_phase");
  }

  lemma PicksOfUnphased(fmt: Format, charge: Log, refund: Log)
    requires charge.kind == Consume && TaskOf(fmt, charge) == "t" && PhaseOf(fmt, charge) == PHASE_REFUND
    requires refund.kind == Refund && TaskOf(fmt, refund) == "t" && PhaseOf(fmt, refund) == ""
    ensures PickAll(fmt, GroupOf(fmt, [charge, refund], "t")) == Picked(Some(charge), Some(refund), false)
  {
    hide TaskOf, PhaseOf;
    var logs := [charge, refund];
    assert logs[..1] == [charge] && [charge][..0] == [];
    assert GroupOf(fmt, [charge], "t") == [charge] && GroupOf(fmt, logs, "t") == logs;
    assert PickAll(fmt, []) == Picked(None, None, false);
    assert PickAll(fmt, [charge]) == Picked(Some(charge), Some(charge), false);
  }

  /** Why the queries name the phases first: on a list that they never deliver, a refund without a phase survives the
      first pass as a refund of a failure. */
  lemma UnphasedRefundVanishes(fmt: Format)
    ensures var charge := Log(1, Consume, 10, 1, 5, 0, 0, "m", "", 0,
            map["task_id" := Words("t"), "billing_phase" := Words("refund")]);
            var refund := Log(2, Refund, 20, 1, 5, 0, 0, "m", "", 0, map["task_id" := Words("t")]);
            forall once: seq<Log>, twice: seq<Log> ::
              IsCollapse(fmt, [charge, refund], once) && IsCollapse(fmt, once, twice) ==> twice != once
  {
    hide FieldText, CollapseTask, IsCollapse, TaskOf, PhaseOf, GroupOf, PickAll;
    var charge := Log(1, Consume, 10, 1, 5, 0, 0, "m", "", 0,
      map["task_id" := Words("t"), "billing_phase" := Words("refund")]);
    var refund := Log(2, Refund, 20, 1, 5, 0, 0, "m", "", 0, map["task_id" := Words("t")]);
    var logs := [charge, refund];
    FieldsOfUnphased(fmt, charge, refund);
    PicksOfUnphased(fmt, charge, refund);
    assert charge in logs && "t" in Tasks(fmt, logs);
    forall once: seq<Log>, twice: seq<Log> | IsCollapse(fmt, logs, once) && IsCollapse(fmt, once, twice)
      ensures twice != once
    {
      CollapseTwicePicks(fmt, logs, once, twice);
    }
  }

  // ---------- Fetching the closing logs of tasks that began in the period ----------

  ghost function UsersOfTasks(fmt: Format, logs: seq<Log>): set<int> {
    set l | l in logs && TaskOf(fmt, l) != "" && l.userID > 0 :: l.userID
  }

  lemma NoUsers(fmt: Format)
    ensures Tasks(fmt, []) == {} && UsersOfTasks(fmt, []) == {}
  {
  }

  lemma UsersGrow(fmt: Format, logs: seq<Log>, log: Log)
    ensures UsersOfTasks(fmt, logs + [log]) ==
            UsersOfTasks(fmt, logs) + (if TaskOf(fmt, log) != "" && log.userID > 0 then {log.userID} else {})
  {
    hide TaskOf;
    var grown := UsersOfTasks(fmt, logs + [log]);
    assert forall l :: l in logs + [log] <==> l in logs || l == log;
    forall l | l in logs && TaskOf(fmt, l) != "" && l.userID > 0 ensures l.userID in grown {
      assert l in logs + [log];
    }
    assert log in logs + [log];
  }

  /** The earliest positive time of a log, or 0. */
  ghost predicate EarliestTime(logs: seq<Log>, since: int) {
    if forall l <- logs :: l.createdAt <= 0 then since == 0
    else
      && since > 0 && (exists l <- logs :: l.createdAt == since)
      && forall l <- logs :: l.createdAt > 0 ==> since <= l.createdAt
  }

  /** The first loop of appendBillingSummaryTerminalLogs: the tasks, their users and the earliest time of the logs. */
  method TerminalQuery(fmt: Format, logs: seq<Log>) returns (taskIDs: seq<string>, userIDs: seq<int>, since: int)
    ensures Members(taskIDs) == Tasks(fmt, logs) && NoRepeats(taskIDs)
    ensures Members(userIDs) == UsersOfTasks(fmt, logs) && NoRepeats(userIDs)
    ensures EarliestTime(logs, since)
  {
    hide TaskOf, Tasks, UsersOfTasks;
    taskIDs, userIDs, since := [], [], 0;
    assert Tasks(fmt, []) == {} && UsersOfTasks(fmt, []) == {} by {
      NoUsers(fmt);
    }
    for n := 0 to |logs|
      invariant Members(taskIDs) == Tasks(fmt, logs[..n]) && NoRepeats(taskIDs)
      invariant Members(userIDs) == UsersOfTasks(fmt, logs[..n]) && NoRepeats(userIDs)
      invariant EarliestTime(logs[..n], since)
    {
      var log := logs[n];
      assert logs[..n + 1] == logs[..n] + [log];
      TasksGrow(fmt, logs[..n], log);
      UsersGrow(fmt, logs[..n], log);
      if log.createdAt > 0 && (since == 0 || log.createdAt < since) {
        since := log.createdAt;
      }
      var task := TaskOf(fmt, log);
      if task != "" {
        if task !in taskIDs {
          taskIDs := taskIDs + [task];
        }
        if log.userID > 0 && log.userID !in userIDs {
          userIDs := userIDs + [log.userID];
        }
      }
    }
    assert logs[..|logs|] == logs;
  }

  /** The fetched logs that are added: those of a seen task whose id has not been seen. */
  ghost predicate IsAppended(fmt: Format, logs: seq<Log>, terminal: seq<Log>, out: seq<Log>) {
    && logs <= out
    && (forall j :: |logs| <= j < |out| ==> out[j] in terminal && TaskOf(fmt, out[j]) in Tasks(fmt, logs))
    && (forall i, j :: 0 <= i < j < |out| && |logs| <= j && out[j].id > 0 ==> out[i].id != out[j].id)
    && (forall t <- terminal :: TaskOf(fmt, t) in Tasks(fmt, logs) ==> IsCovered(out, t))
  }

  ghost predicate IsCovered(out: seq<Log>, t: Log) {
    t in out || (t.id > 0 && exists l <- out :: l.id == t.id)
  }

  ghost function PositiveIds(logs: seq<Log>): set<int> {
    set l | l in logs && l.id > 0 :: l.id
  }

  lemma IdsGrow(logs: seq<Log>, log: Log)
    ensures PositiveIds(logs + [log]) == PositiveIds(logs) + (if log.id > 0 then {log.id} else {})
  {
    var grown := PositiveIds(logs + [log]);
    assert forall l :: l in logs + [log] <==> l in logs || l == log;
    forall l | l in logs && l.id > 0 ensures l.id in grown {
      assert l in logs + [log];
    }
    assert log in logs + [log];
  }

  lemma AppendOne(fmt: Format, logs: seq<Log>, terminal: seq<Log>, out: seq<Log>, log: Log)
    requires IsAppended(fmt, logs, terminal, out)
    requires TaskOf(fmt, log) in Tasks(fmt, logs) && (log.id <= 0 || log.id !in PositiveIds(out))
    ensures IsAppended(fmt, logs, terminal + [log], out + [log])
  {
    hide TaskOf, Tasks, IsCovered;
    forall t | t in out || IsCovered(out, t) ensures IsCovered(out + [log], t) {
      CoveredGrows(out, t, log);
    }
    assert IsCovered(out + [log], log) by {
      CoveredByItself(out + [log], log);
    }
    assert forall i :: 0 <= i < |out| && out[i].id > 0 ==> out[i].id in PositiveIds(out);
    assert log in terminal + [log] && forall t :: t in terminal + [log] <==> t in terminal || t == log;
  }

  lemma CoveredByItself(out: seq<Log>, t: Log)
    requires out != [] && out[|out| - 1] == t
    ensures IsCovered(out, t)
  {
  }

  lemma CoveredGrows(out: seq<Log>, t: Log, log: Log)
    requires t in out || IsCovered(out, t)
    ensures IsCovered(out + [log], t)
  {
    assert forall l :: l in out ==> l in out + [log];
  }

  lemma SkipOne(fmt: Format, logs: seq<Log>, terminal: seq<Log>, out: seq<Log>, log: Log)
    requires IsAppended(fmt, logs, terminal, out)
    requires TaskOf(fmt, log) !in Tasks(fmt, logs) || (log.id > 0 && log.id in PositiveIds(out))
    ensures IsAppended(fmt, logs, terminal + [log], out)
  {
    hide TaskOf, Tasks;
    assert forall t :: t in terminal + [log] <==> t in terminal || t == log;
  }

  /** The second loop of appendBillingSummaryTerminalLogs. */
  method AppendTerminal(fmt: Format, logs: seq<Log>, terminal: seq<Log>) returns (out: seq<Log>)
    ensures IsAppended(fmt, logs, terminal, out)
  {
    hide TaskOf, Tasks, PositiveIds;
    var taskIDs, _, _ := TerminalQuery(fmt, logs);
    out := logs;
    var seen := LogIds(logs);
    for n := 0 to |terminal|
      invariant IsAppended(fmt, logs, terminal[..n], out)
      invariant seen == PositiveIds(out)
    {
      hide IsAppended;
      var log := terminal[n];
      assert terminal[..n + 1] == terminal[..n] + [log];
      assert TaskOf(fmt, log) in taskIDs <==> TaskOf(fmt, log) in Members(taskIDs);
      if TaskOf(fmt, log) in taskIDs && (log.id <= 0 || log.id !in seen) {
        AppendOne(fmt, logs, terminal[..n], out, log);
        IdsGrow(out, log);
        if log.id > 0 {
          seen := seen + {log.id};
        }
        out := out + [log];
      } else {
        SkipOne(fmt, logs, terminal[..n], out, log);
      }
    }
    assert terminal[..|terminal|] == terminal;
  }

  method LogIds(logs: seq<Log>) returns (seen: set<int>)
    ensures seen == PositiveIds(logs)
  {
    seen := {};
    for n := 0 to |logs|
      invariant seen == PositiveIds(logs[..n])
    {
      assert logs[..n + 1] == logs[..n] + [logs[n]];
      IdsGrow(logs[..n], logs[n]);
      if logs[n].id > 0 {
        seen := seen + {logs[n].id};
      }
    }
    assert logs[..|logs|] == logs;
  }

  /** The appended list keeps its ids apart when the logs and the fetched logs have proper ids. */
  lemma AppendedIdsDistinct(fmt: Format, logs: seq<Log>, terminal: seq<Log>, out: seq<Log>)
    requires DistinctIds(logs) && IsAppended(fmt, logs, terminal, out) && forall t <- terminal :: t.id > 0
    ensures DistinctIds(out)
  {
    hide TaskOf;
    forall i, j | 0 <= i < j < |out| ensures out[i].id != out[j].id {
      if j < |logs| {
        assert out[i] == logs[i] && out[j] == logs[j];
      }
    }
  }
}
