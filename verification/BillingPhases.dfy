/** How the log queries name the billing phase of every log before an export sees it: inferBillingPhase,
    normalizeLogBillingMetadata and mergeSettlementMarkersIntoPreChargeLogs in model/log.go. */
module BillingPhases {
  import opened Options
  import opened Text
  import opened BillingLog
  import opened BillingCollapse

  // ---------- Naming the phase ----------

  predicate HasPositive(fmt: Format, other: Fields, key: string) {
    key in other && AsNumber(fmt, other[key]).Some? && AsNumber(fmt, other[key]).value > 0.0
  }

  /** The phase is stored as a text that is not blank. */
  predicate NamesPhase(other: Fields) {
    "billing_phase" in other && other["billing_phase"].Words? && TrimSpace(other["billing_phase"].s) != ""
  }

  /** inferBillingPhase */
  function InferPhase(fmt: Format, log: Log): string {
    if NamesPhase(log.other) then log.other["billing_phase"].s
    else if "task_id" !in log.other then PHASE_NORMAL
    else
      var settles := HasPositive(fmt, log.other, "actual_quota") && HasPositive(fmt, log.other, "pre_consumed_quota");
      match log.kind
      case Refund => PHASE_REFUND
      case Consume =>
        if log.quota == 0 && settles then PHASE_SETTLEMENT_MARKER
        else if log.quota > 0 && settles then
          var actual := AsNumber(fmt, log.other["actual_quota"]).value;
          var before := AsNumber(fmt, log.other["pre_consumed_quota"]).value;
          if before > actual then PHASE_DELTA_REFUND else PHASE_DELTA_CHARGE
        else if log.quota > 0 then PHASE_PRE_CHARGE
        else PHASE_NORMAL
      case OtherKind => PHASE_NORMAL
  }

  /** SignedLogDelta for the two kinds of log that an export asks for. */
  function SignedDelta(log: Log): int {
    match log.kind case Consume => -log.quota case Refund => log.quota case OtherKind => 0
  }

  function WithMetadata(other: Fields, phase: string, affects: bool, display: int, delta: int): Fields {
    other["billing_phase" := Words(if TrimSpace(phase) == "" then PHASE_NORMAL else phase)]
         ["affects_balance" := Flag(affects)]["display_quota" := Number(display as real)]
         ["balance_delta" := Number(delta as real)]
  }

  /** normalizeLogBillingMetadata: a log of no special phase stays as it is. */
  function NamePhase(fmt: Format, log: Log): Log {
    var phase := InferPhase(fmt, log);
    if phase == PHASE_NORMAL then log
    else
      var marker := phase == PHASE_SETTLEMENT_MARKER;
      var still := marker || ("affects_balance" in log.other && log.other["affects_balance"] == Flag(false));
      var display :=
        if marker && HasPositive(fmt, log.other, "actual_quota")
        then AsNumber(fmt, log.other["actual_quota"]).value.Floor
        else log.quota;
      log.(other := WithMetadata(log.other, phase, !still && log.kind != OtherKind && log.quota > 0, display,
                                 if still then 0 else SignedDelta(log)))
  }

  // ---------- Merging a settlement into its pre-charge ----------

  function StoredTask(other: Fields): string {
    if "task_id" in other && other["task_id"].Words? then TrimSpace(other["task_id"].s) else ""
  }

  /** A charge whose settlement is looked up. */
  predicate Pending(fmt: Format, log: Log) {
    log.kind == Consume && log.quota > 0 && !HasPositive(fmt, log.other, "actual_quota") && StoredTask(log.other) != ""
  }

  /** isTaskSettlementResultLog, for the task of `charge`. */
  predicate Settles(fmt: Format, hit: Log, charge: Log) {
    && (hit.kind == Consume || hit.kind == Refund) && StoredTask(hit.other) == StoredTask(charge.other)
    && HasPositive(fmt, hit.other, "actual_quota") && "pre_consumed_quota" in hit.other
  }

  const KEPT := {"request_path", "billing_phase", "affects_balance", "balance_delta", "display_quota"}

  /** The charge takes over the settlement's fields; `sources` is the text that names the two logs. */
  function MergeSettlement(fmt: Format, charge: Log, hit: Log, sources: string): Log
    requires Settles(fmt, hit, charge)
  {
    var actual := AsNumber(fmt, hit.other["actual_quota"]).value.Floor;
    var merged := (charge.other + (hit.other - KEPT))["source_log_ids" := Nested(sources)];
    charge.(
      other := WithMetadata(merged, PHASE_SETTLEMENT_MERGED, true, actual, SignedDelta(charge)),
      promptTokens :=
        if HasPositive(fmt, hit.other, "audio_seconds")
        then (AsNumber(fmt, hit.other["audio_seconds"]).value + 0.999999).Floor
        else charge.promptTokens)
  }

  // ---------- The fields that naming and merging write ----------

  lemma OneNumber(fmt: Format, other: Fields, key: string)
    ensures FieldNumber(fmt, other, [key]) == if key in other then AsNumber(fmt, other[key]) else None
  {
    assert [key][1..] == [];
  }

  ghost predicate NumberAbove(fmt: Format, other: Fields, key: string, bound: real) {
    FieldNumber(fmt, other, [key]).Some? && FieldNumber(fmt, other, [key]).value > bound
  }

  /** Without a stored phase, the refund of a task is a refund; a charge of a task that states what was pre-consumed and
      what was due is a settlement marker if it took nothing, a refund if more was pre-consumed than due, and a charge
      otherwise; any other charge of a task is a pre-charge, if it took something. All else is normal. */
  lemma PhaseExactly(fmt: Format, log: Log)
    requires !("billing_phase" in log.other && log.other["billing_phase"].Words?
               && TrimSpace(log.other["billing_phase"].s) != "")
    ensures var phase, task := InferPhase(fmt, log), "task_id" in log.other;
            var settles :=
              && NumberAbove(fmt, log.other, "actual_quota", 0.0)
              && NumberAbove(fmt, log.other, "pre_consumed_quota", 0.0);
            && (!task ==> phase == "normal")
            && (task && log.kind == Refund ==> phase == "refund")
            && (task && log.kind == Consume && log.quota == 0 ==>
                  phase == if settles then "settlement_marker" else "normal")
            && (task && log.kind == Consume && log.quota > 0 && settles ==>
                  var actual := FieldNumber(fmt, log.other, ["actual_quota"]).value;
                  phase ==
                  if NumberAbove(fmt, log.other, "pre_consumed_quota", actual) then "delta_refund" else "delta_charge")
            && (task && log.kind == Consume && log.quota > 0 && !settles ==> phase == "pre_charge")
            && (task && log.kind == Consume && log.quota < 0 ==> phase == "normal")
  {
    hide AsNumber, TrimSpace, FieldNumber;
    OneNumber(fmt, log.other, "actual_quota");
    OneNumber(fmt, log.other, "pre_consumed_quota");
  }

  /** A stored phase stands. */
  lemma StoredPhaseStands(fmt: Format, log: Log)
    requires "billing_phase" in log.other && log.other["billing_phase"].Words?
    ensures TrimSpace(log.other["billing_phase"].s) != "" ==> InferPhase(fmt, log) == log.other["billing_phase"].s
  {
    hide TrimSpace;
  }

  /** Naming writes four fields and nothing else: the phase, whether the log moved the balance, the quota to show, and
      the change of the balance. A marker, and a log that says that it did not move the balance, did not; a marker shows
      what was due. */
  lemma NamedFields(fmt: Format, log: Log)
    requires log.kind != OtherKind
    ensures var named, phase := NamePhase(fmt, log), InferPhase(fmt, log);
            && named == log.(other := named.other)
            && (phase == "normal" ==> named == log)
            && (phase != "normal" ==>
                  var marker := phase == "settlement_marker";
                  var still :=
                    marker || ("affects_balance" in log.other && log.other["affects_balance"] == Flag(false));
                  var due := FieldNumber(fmt, log.other, ["actual_quota"]);
                  var written := {"billing_phase", "affects_balance", "display_quota", "balance_delta"};
                  && named.other.Keys == log.other.Keys + written
                  && (forall key <- log.other :: key !in written ==> named.other[key] == log.other[key])
                  && named.other["billing_phase"] == Words(phase)
                  && named.other["affects_balance"] == Flag(!still && log.quota > 0)
                  && named.other["balance_delta"] ==
                     Number((if still then 0 else if log.kind == Refund then log.quota else -log.quota) as real)
                  && named.other["display_quota"] ==
                     Number((if marker && due.Some? && due.value > 0.0 then due.value.Floor else log.quota) as real))
  {
    hide AsNumber, TrimSpace, FieldNumber, InferPhase;
    OneNumber(fmt, log.other, "actual_quota");
    PhaseIsSolid(fmt, log);
  }

  lemma PhaseIsSolid(fmt: Format, log: Log)
    ensures TrimSpace(InferPhase(fmt, log)) != ""
  {
    hide TrimSpace, HasPositive;
    NormalIsTrimmed();
    PhasesAreSolid();
  }

  ghost predicate StatesTask(other: Fields, task: string) {
    "task_id" in other && other["task_id"].Words? && TrimSpace(other["task_id"].s) == task
  }

  /** A settlement is merged into a charge that took something and does not state what was due; it is a charge or refund
      of the same task that states what was due and what was pre-consumed. */
  lemma MergesExactly(fmt: Format, charge: Log, hit: Log)
    ensures Pending(fmt, charge) && Settles(fmt, hit, charge) <==>
            && charge.kind == Consume && charge.quota > 0 && !NumberAbove(fmt, charge.other, "actual_quota", 0.0)
            && hit.kind != OtherKind && NumberAbove(fmt, hit.other, "actual_quota", 0.0)
            && "pre_consumed_quota" in hit.other
            && exists task :: task != "" && StatesTask(charge.other, task) && StatesTask(hit.other, task)
  {
    hide AsNumber, TrimSpace, FieldNumber;
    OneNumber(fmt, charge.other, "actual_quota");
    OneNumber(fmt, hit.other, "actual_quota");
    if Pending(fmt, charge) && Settles(fmt, hit, charge) {
      assert StatesTask(charge.other, StoredTask(charge.other)) && StatesTask(hit.other, StoredTask(charge.other));
    }
  }

  /** A merged charge has the settlement's fields, except for the request path and the four that are written, and names
      both logs; it counts the seconds of the settlement's audio, rounded up, as its prompt. */
  lemma MergedFields(fmt: Format, charge: Log, hit: Log, sources: string)
    requires Pending(fmt, charge) && Settles(fmt, hit, charge)
    ensures var l := MergeSettlement(fmt, charge, hit, sources);
            var due := FieldNumber(fmt, hit.other, ["actual_quota"]);
            var seconds := FieldNumber(fmt, hit.other, ["audio_seconds"]);
            var written := {"billing_phase", "affects_balance", "display_quota", "balance_delta"};
            && l == charge.(other := l.other, promptTokens := l.promptTokens)
            && l.other.Keys == charge.other.Keys + (hit.other.Keys - {"request_path"}) + written + {"source_log_ids"}
            && (forall key <- hit.other :: key !in written + {"request_path", "source_log_ids"} ==>
                  l.other[key] == hit.other[key])
            && (forall key <- charge.other ::
                  key !in written + {"source_log_ids"} && (key !in hit.other || key == "request_path") ==>
                    l.other[key] == charge.other[key])
            && l.other["source_log_ids"] == Nested(sources) && l.other["billing_phase"] == Words("settlement_merged")
            && l.other["affects_balance"] == Flag(true) && due.Some?
            && l.other["display_quota"] == Number(due.value.Floor as real)
            && l.other["balance_delta"] == Number(-(charge.quota as real))
            && (if seconds.Some? && seconds.value > 0.0
                then (l.promptTokens - 1) as real <= seconds.value - 0.000001 < l.promptTokens as real
                else l.promptTokens == charge.promptTokens)
  {
    hide AsNumber, TrimSpace, FieldNumber, WithMetadata, HasPositive, StoredTask;
    MergedParts(fmt, charge, hit, sources);
    var due := FieldNumber(fmt, hit.other, ["actual_quota"]).value;
    var merged := (charge.other + (hit.other - KEPT))["source_log_ids" := Nested(sources)];
    hide MergeSettlement;
    NormalIsTrimmed();
    MetadataFields(merged, PHASE_SETTLEMENT_MERGED, true, due.Floor, -charge.quota);
    assert (-charge.quota) as real == -(charge.quota as real);
  }

  /** The two changes of a merged charge. */
  lemma MergedParts(fmt: Format, charge: Log, hit: Log, sources: string)
    requires Pending(fmt, charge) && Settles(fmt, hit, charge)
    ensures var l := MergeSettlement(fmt, charge, hit, sources);
            var due := FieldNumber(fmt, hit.other, ["actual_quota"]);
            var seconds := FieldNumber(fmt, hit.other, ["audio_seconds"]);
            var merged := (charge.other + (hit.other - KEPT))["source_log_ids" := Nested(sources)];
            && due.Some? && l == charge.(other := l.other, promptTokens := l.promptTokens)
            && l.other == WithMetadata(merged, PHASE_SETTLEMENT_MERGED, true, due.value.Floor, -charge.quota)
            && (if seconds.Some? && seconds.value > 0.0
                then (l.promptTokens - 1) as real <= seconds.value - 0.000001 < l.promptTokens as real
                else l.promptTokens == charge.promptTokens)
  {
    hide AsNumber, TrimSpace, FieldNumber, WithMetadata, StoredTask;
    OneNumber(fmt, hit.other, "actual_quota");
    OneNumber(fmt, hit.other, "audio_seconds");
  }

  lemma MetadataFields(other: Fields, phase: string, affects: bool, display: int, delta: int)
    requires TrimSpace(phase) != ""
    ensures var r := WithMetadata(other, phase, affects, display, delta);
            var written := {"billing_phase", "affects_balance", "display_quota", "balance_delta"};
            && r.Keys == other.Keys + written && (forall key <- other :: key !in written ==> r[key] == other[key])
            && r["billing_phase"] == Words(phase) && r["affects_balance"] == Flag(affects)
            && r["display_quota"] == Number(display as real) && r["balance_delta"] == Number(delta as real)
  {
    hide TrimSpace;
  }

  // ---------- What an export receives ----------

  /** A stored log after the query's passes: its phase named, its settlement merged if it is a charge that has one, and
      possibly without the name of its channel. */
  ghost predicate IsDelivered(fmt: Format, l: Log) {
    exists raw: Log, named: Log ::
      IsNamed(fmt, raw, named) && (l == named || l == named.(other := named.other - {"channel_name"}))
  }

  ghost predicate IsNamed(fmt: Format, raw: Log, l: Log) {
    || l == NamePhase(fmt, raw)
    || exists hit: Log, sources: string ::
         Pending(fmt, NamePhase(fmt, raw)) && Settles(fmt, hit, NamePhase(fmt, raw))
         && l == MergeSettlement(fmt, NamePhase(fmt, raw), hit, sources)
  }

  /** A named log is inferred to have the phase it was given. */
  lemma NamingIsStable(fmt: Format, raw: Log)
    ensures InferPhase(fmt, NamePhase(fmt, raw)) == InferPhase(fmt, raw)
  {
    hide TrimSpace, HasPositive;
    NormalIsTrimmed();
    PhasesAreSolid();
  }

  lemma PhasesAreSolid()
    ensures forall phase <- {PHASE_PRE_CHARGE, PHASE_SETTLEMENT_MARKER, PHASE_DELTA_CHARGE, PHASE_DELTA_REFUND} ::
              TrimSpace(phase) == phase
  {
  }

  lemma TextOf(fmt: Format, other: Fields, key: string)
    ensures FieldText(fmt, other, [key]) == if key in other then TrimSpace(Print(fmt, other[key])) else ""
  {
    hide TrimSpace, Print;
    OneKey(fmt, other, key);
  }

  /** The phase of a delivered refund of a task: the stored one, or that of a refund. */
  lemma RefundIsNamed(fmt: Format, raw: Log)
    requires raw.kind == Refund && TaskOf(fmt, raw) != ""
    ensures PhaseOf(fmt, NamePhase(fmt, raw)) ==
            if NamesPhase(raw.other) then TrimSpace(raw.other["billing_phase"].s) else PHASE_REFUND
  {
    hide TrimSpace, FieldText, HasPositive;
    TextOf(fmt, raw.other, "task_id");
    TextOf(fmt, raw.other, "billing_phase");
    TextOf(fmt, NamePhase(fmt, raw).other, "billing_phase");
    NormalIsTrimmed();
  }

  lemma NormalIsTrimmed()
    ensures TrimSpace(PHASE_NORMAL) == PHASE_NORMAL && TrimSpace(PHASE_REFUND) == PHASE_REFUND
    ensures TrimSpace(PHASE_SETTLEMENT_MERGED) == PHASE_SETTLEMENT_MERGED
  {
  }

  /** Merging keeps the charge's task and names its phase. */
  lemma MergedKeepsTask(fmt: Format, charge: Log, hit: Log, sources: string)
    requires Pending(fmt, charge) && Settles(fmt, hit, charge)
    ensures var l := MergeSettlement(fmt, charge, hit, sources);
            TaskOf(fmt, l) == TaskOf(fmt, charge) && PhaseOf(fmt, l) == PHASE_SETTLEMENT_MERGED
  {
    hide TrimSpace, FieldText, HasPositive;
    var l := MergeSettlement(fmt, charge, hit, sources);
    TextOf(fmt, charge.other, "task_id");
    TextOf(fmt, l.other, "task_id");
    TextOf(fmt, l.other, "billing_phase");
    NormalIsTrimmed();
  }

  /** No refund of a task reaches an export without a phase. */
  lemma DeliveredRefundIsNamed(fmt: Format, l: Log)
    requires IsDelivered(fmt, l) && l.kind == Refund && TaskOf(fmt, l) != ""
    ensures PhaseOf(fmt, l) != ""
  {
    hide TrimSpace, FieldText, HasPositive, InferPhase, IsNamed;
    var raw, named :| IsNamed(fmt, raw, named) && (l == named || l == named.(other := named.other - {"channel_name"}));
    TextOf(fmt, named.other, "task_id");
    TextOf(fmt, named.other, "billing_phase");
    TextOf(fmt, l.other, "task_id");
    TextOf(fmt, l.other, "billing_phase");
    assert TaskOf(fmt, named) == TaskOf(fmt, l) && PhaseOf(fmt, named) == PhaseOf(fmt, l);
    NamedRefund(fmt, raw, named);
    RefundIsNamed(fmt, raw);
  }

  lemma NamedRefund(fmt: Format, raw: Log, named: Log)
    requires IsNamed(fmt, raw, named) && named.kind == Refund
    ensures named == NamePhase(fmt, raw) && raw.kind == Refund && TaskOf(fmt, named) == TaskOf(fmt, raw)
  {
    hide TrimSpace, FieldText, HasPositive, InferPhase;
    TextOf(fmt, named.other, "task_id");
    TextOf(fmt, raw.other, "task_id");
  }

  /** On the logs of an export, the period's and the closing ones of its tasks, collapsing is idempotent. */
  lemma ExportCollapsesOnce(
    fmt: Format, logs: seq<Log>, terminal: seq<Log>, all: seq<Log>, once: seq<Log>, twice: seq<Log>)
    requires forall l <- logs + terminal :: IsDelivered(fmt, l)
    requires IsAppended(fmt, logs, terminal, all) && DistinctIds(all)
    requires IsCollapse(fmt, all, once) && IsCollapse(fmt, once, twice)
    ensures twice == once
  {
    hide IsDelivered, IsCollapse, TaskOf, PhaseOf, Tasks, DistinctIds;
    forall l <- all | l.kind == Refund && TaskOf(fmt, l) != "" ensures PhaseOf(fmt, l) != "" {
      var j :| 0 <= j < |all| && all[j] == l;
      assert l in logs + terminal by {
        if j < |logs| {
          assert all[j] == logs[j];
        }
      }
      DeliveredRefundIsNamed(fmt, l);
    }
    NamedRefundsCollapseOnce(fmt, all, once, twice);
  }
}
