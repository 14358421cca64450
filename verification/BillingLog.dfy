/** Consumption logs and the lookups in their extra fields (controller/log_export.go). */
module BillingLog {
  import opened Options
  import opened Text

  datatype Kind = Consume | Refund | OtherKind

  datatype Json = Null | Flag(b: bool) | Number(r: real) | Words(s: string) | Nested(text: string)

  type Fields = map<string, Json>

  /** The library's number formatting, number parsing and lower-casing. */
  datatype Format = Format(show: real -> string, parse: string -> Option<real>, lower: string -> string)

  datatype Log = Log(
    id: int, kind: Kind, createdAt: int, userID: int, quota: int, promptTokens: int, completionTokens: int,
    modelName: string, routeSlug: string, channelID: int, other: Fields)

  function Print(fmt: Format, v: Json): string {
    match v
    case Null => ""
    case Flag(b) => if b then "true" else "false"
    case Number(r) => fmt.show(r)
    case Words(s) => s
    case Nested(text) => text
  }

  /** logExportString: the first of the keys that holds something printable. */
  function FieldText(fmt: Format, other: Fields, keys: seq<string>): string {
    if keys == [] then ""
    else if keys[0] in other && TrimSpace(Print(fmt, other[keys[0]])) != "" then TrimSpace(Print(fmt, other[keys[0]]))
    else FieldText(fmt, other, keys[1..])
  }

  function AsNumber(fmt: Format, v: Json): Option<real> {
    match v
    case Number(r) => Some(r)
    case Words(s) => fmt.parse(TrimSpace(s))
    case _ => None
  }

  /** logExportNumber: the first of the keys that holds a number, also as text. */
  function FieldNumber(fmt: Format, other: Fields, keys: seq<string>): Option<real> {
    if keys == [] then None
    else if keys[0] in other && AsNumber(fmt, other[keys[0]]).Some? then AsNumber(fmt, other[keys[0]])
    else FieldNumber(fmt, other, keys[1..])
  }

  function TaskOf(fmt: Format, log: Log): string {
    FieldText(fmt, log.other, ["task_id"])
  }

  function PhaseOf(fmt: Format, log: Log): string {
    FieldText(fmt, log.other, ["billing_phase"])
  }

  const PHASE_NORMAL := "normal"
  const PHASE_PRE_CHARGE := "pre_charge"
  const PHASE_SETTLEMENT_MARKER := "settlement_marker"
  const PHASE_SETTLEMENT_MERGED := "settlement_merged"
  const PHASE_DELTA_CHARGE := "delta_charge"
  const PHASE_DELTA_REFUND := "delta_refund"
  const PHASE_REFUND := "refund"

  /** billingSummaryPhasePriority */
  function Priority(phase: string): int {
    if phase == PHASE_DELTA_CHARGE || phase == PHASE_DELTA_REFUND then 50
    else if phase == PHASE_SETTLEMENT_MERGED then 40
    else if phase == PHASE_SETTLEMENT_MARKER then 35
    else if phase == PHASE_PRE_CHARGE then 20
    else if phase == PHASE_NORMAL || phase == "" then 10
    else 5
  }

  ghost predicate DistinctIds(logs: seq<Log>) {
    forall i, j :: 0 <= i < j < |logs| ==> logs[i].id != logs[j].id
  }
}
