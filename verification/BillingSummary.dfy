/** The four sheets of the billing summary: buildBillingSummaryData, sortBillingSummaryData and the printed totals
    in controller/billing_summary_export.go. */
module BillingSummary {
  import opened Seqs
  import opened Sets
  import opened Text
  import opened Order
  import opened BillingLog
  import opened BillingCollapse
  import opened BillingComponents

  // ---------- Merging rows ----------

  datatype Key = Key(period: string, model: string, mode: Mode)

  function KeyOf(env: Env, r: Row): Key {
    Key(env.keyOf(r.start), r.model, r.mode)
  }

  function MultipleSpecs(env: Env): string {
    if env.english then "Multiple specifications" else "多规格"
  }

  /** billingSummaryMergeSpec */
  function MergeSpec(env: Env, current: string, next: string): string {
    var x, y := TrimSpace(current), TrimSpace(next);
    if x == y then x else if x == "" then y else if y == "" then x else MultipleSpecs(env)
  }

  function AddLine(x: Line, y: Line): Line {
    x.(usage := x.usage + y.usage, official := x.official + y.official)
  }

  function AddLines(x: Lines, y: Lines): Lines {
    Lines(AddLine(x.a, y.a), AddLine(x.b, y.b), AddLine(x.c, y.c), AddLine(x.d, y.d), AddLine(x.e, y.e))
  }

  function Merge(env: Env, row: Row, c: Row): Row {
    row.(calls := row.calls + c.calls, lines := AddLines(row.lines, c.lines), official := row.official + c.official,
         settlement := row.settlement + c.settlement, spec := MergeSpec(env, row.spec, c.spec))
  }

  function Put(env: Env, m: map<Key, Row>, r: Row): map<Key, Row> {
    var k := KeyOf(env, r);
    m[k := if k in m then Merge(env, m[k], r) else r]
  }

  /** The map of a sheet after the rows. */
  function SheetMap(env: Env, rows: seq<Row>, sheet: Sheet): map<Key, Row> {
    if rows == [] then map[] else
      var m, last := SheetMap(env, rows[..|rows| - 1], sheet), rows[|rows| - 1];
      if last.sheet == sheet then Put(env, m, last) else m
  }

  // ---------- Finishing a row ----------

  function Reprice(line: Line, factor: real): Line {
    if line.usage > 0.0 then line.(price := line.official * factor / line.usage) else line
  }

  /** The prices of a finished row are weighted by usage. */
  function Finish(r: Row): Row {
    var l := r.lines;
    match r.sheet
    case TextSheet | AudioSheet =>
      r.(lines := Lines(Reprice(l.a, MILLION), Reprice(l.b, MILLION), Reprice(l.c, MILLION), Reprice(l.d, MILLION),
        Reprice(l.e, 1.0)))
    case VideoSheet => r.(lines := l.(a := Reprice(l.a, MILLION), b := Reprice(l.b, Factor(r.mode))))
    case ImageSheet =>
      r.(lines := l.(a := if l.a.usage > 0.0 then l.a.(price := r.official * Factor(r.mode) / l.a.usage) else l.a))
  }

  // ---------- Sorting ----------

  function Label(english: bool, sheet: Sheet, mode: Mode): string {
    match mode
    case NoMode => ""
    case PerCall => if english then "Per Call" else "按次"
    case PerSecond => if english then "Per Second" else if sheet == VideoSheet then "视频按秒" else "音频按秒"
    case PerVideo => if english then "Per Video" else "视频按条"
    case PerImage => if english then "Per Image" else "图片按张"
    case ByToken =>
      if sheet == VideoSheet then if english then "Video Token" else "视频 Token"
      else if sheet == ImageSheet then if english then "Image Token" else "图片 Token"
      else if english then "Audio Token" else "音频 Token"
  }

  predicate RowBefore(english: bool, a: Row, b: Row) {
    if a.start != b.start then a.start < b.start
    else if a.model != b.model then LexLess(a.model, b.model)
    else LexLess(Label(english, a.sheet, a.mode), Label(english, b.sheet, b.mode))
  }

  function RowLess(env: Env): (Row, Row) -> bool {
    (a: Row, b: Row) => RowBefore(env.english, a, b)
  }

  lemma RowLessIsStrict(env: Env)
    ensures StrictOrder(RowLess(env))
  {
    hide LexLess, Label;
    LexStrictTotal();
  }

  /** The modes of a sheet have different labels in both languages. */
  lemma LabelsDiffer(english: bool, sheet: Sheet, m: Mode, n: Mode)
    requires PossibleMode(sheet, m) && PossibleMode(sheet, n) && Label(english, sheet, m) == Label(english, sheet, n)
    ensures m == n
  {
    assert "Per Video"[4] != "Per Image"[4] && "Per Call"[4] != "Per Video"[4];
    assert "视频按秒"[3] != "视频按条"[3];
  }

  /** What the billing methods are called. */
  lemma LabelsExactly(english: bool, sheet: Sheet, mode: Mode)
    requires PossibleMode(sheet, mode)
    ensures Label(english, sheet, mode) ==
            match (mode, sheet)
            case (NoMode, _) => ""
            case (PerCall, _) => if english then "Per Call" else "按次"
            case (PerSecond, VideoSheet) => if english then "Per Second" else "视频按秒"
            case (PerSecond, _) => if english then "Per Second" else "音频按秒"
            case (PerVideo, _) => if english then "Per Video" else "视频按条"
            case (PerImage, _) => if english then "Per Image" else "图片按张"
            case (ByToken, VideoSheet) => if english then "Video Token" else "视频 Token"
            case (ByToken, ImageSheet) => if english then "Image Token" else "图片 Token"
            case (ByToken, _) => if english then "Audio Token" else "音频 Token"
  {
  }

  // ---------- The sheets ----------

  datatype Summary = Summary(text: seq<Row>, video: seq<Row>, image: seq<Row>, audio: seq<Row>) {
    function Of(sheet: Sheet): seq<Row> {
      match sheet
      case TextSheet => text
      case VideoSheet => video
      case ImageSheet => image
      case AudioSheet => audio
    }
  }

  /** The rows of the billable logs. */
  function Rows(env: Env, logs: seq<Log>): seq<Row> {
    if logs == [] then [] else
      var last := logs[|logs| - 1];
      var rest := Rows(env, logs[..|logs| - 1]);
      if Billable(env, last) then rest + [RowOf(env, last)] else rest
  }

  ghost function FinishedOf(m: map<Key, Row>, keys: set<Key>): set<Row>
    requires keys <= m.Keys
  {
    set k | k in keys :: Finish(m[k])
  }

  lemma FinishedGrows(m: map<Key, Row>, keys: set<Key>, k: Key)
    requires keys <= m.Keys && k in m
    ensures FinishedOf(m, keys + {k}) == FinishedOf(m, keys) + {Finish(m[k])}
  {
    hide Finish;
  }

  ghost function Finished(m: map<Key, Row>): set<Row> {
    FinishedOf(m, m.Keys)
  }

  ghost predicate IsSheet(env: Env, rows: seq<Row>, sheet: Sheet, printed: seq<Row>) {
    Ascending(RowLess(env), printed) && Members(printed) == Finished(SheetMap(env, rows, sheet))
  }

  ghost predicate IsSummary(env: Env, rows: seq<Row>, data: Summary) {
    forall sheet: Sheet :: IsSheet(env, rows, sheet, data.Of(sheet))
  }

  /** A sheet ascends by period, then by model, then by the name of the billing method. */
  lemma SheetAscends(env: Env, rows: seq<Row>, sheet: Sheet, printed: seq<Row>, i: nat, j: nat)
    requires IsSheet(env, rows, sheet, printed) && i < j < |printed|
    ensures var a, b := printed[i], printed[j];
            var p, q := Label(env.english, a.sheet, a.mode), Label(env.english, b.sheet, b.mode);
            || a.start < b.start
            || (a.start == b.start && exists k: nat :: Precedes(a.model, b.model, k))
            || (a.start == b.start && a.model == b.model && exists k: nat :: Precedes(p, q, k))
  {
    hide LexLess, Precedes, Label;
    var a, b := printed[i], printed[j];
    assert RowLess(env)(a, b);
    LexExactly(a.model, b.model);
    LexExactly(Label(env.english, a.sheet, a.mode), Label(env.english, b.sheet, b.mode));
  }

  predicate FitsSheet(r: Row) {
    PossibleMode(r.sheet, r.mode)
  }

  /** Every row of the map lies under its own key. */
  ghost predicate Keyed(env: Env, sheet: Sheet, m: map<Key, Row>) {
    forall k <- m :: KeyOf(env, m[k]) == k && m[k].sheet == sheet && FitsSheet(m[k])
  }

  lemma {:induction false} SheetMapKeyed(env: Env, rows: seq<Row>, sheet: Sheet)
    requires forall i :: 0 <= i < |rows| ==> FitsSheet(rows[i])
    ensures Keyed(env, sheet, SheetMap(env, rows, sheet))
    ensures forall k :: k in SheetMap(env, rows, sheet) <==>
            exists i :: 0 <= i < |rows| && rows[i].sheet == sheet && KeyOf(env, rows[i]) == k
  {
    hide MergeSpec;
    if rows != [] {
      SheetMapKeyed(env, rows[..|rows| - 1], sheet);
      var prefix := rows[..|rows| - 1];
      assert forall i :: 0 <= i < |prefix| ==> prefix[i] == rows[i];
    }
  }

  lemma {:induction false} RowsFit(env: Env, logs: seq<Log>)
    ensures forall i :: 0 <= i < |Rows(env, logs)| ==> FitsSheet(Rows(env, logs)[i])
  {
    hide RowOf, Billable;
    if logs != [] {
      RowsFit(env, logs[..|logs| - 1]);
      ModeFitsSheet(env, logs[|logs| - 1]);
    }
  }

  lemma DifferentKeysSeparate(env: Env, a: Row, b: Row)
    requires a.sheet == b.sheet && FitsSheet(a) && FitsSheet(b) && KeyOf(env, a) != KeyOf(env, b)
    ensures RowLess(env)(a, b) || RowLess(env)(b, a)
  {
    hide LexLess, Label;
    LexStrictTotal();
    if a.start == b.start && a.model == b.model
        && Label(env.english, a.sheet, a.mode) == Label(env.english, b.sheet, b.mode) {
      LabelsDiffer(env.english, a.sheet, a.mode, b.mode);
    }
  }

  /** The keys of the rows, in their order. */
  function KeysOf(env: Env, rows: seq<Row>): (r: seq<Key>)
    ensures |r| == |rows| && forall i :: 0 <= i < |r| ==> r[i] == KeyOf(env, rows[i])
  {
    if rows == [] then [] else KeysOf(env, rows[..|rows| - 1]) + [KeyOf(env, rows[|rows| - 1])]
  }

  /** The finished rows of the visited keys, in any order. */
  ghost predicate Gathered(env: Env, sheet: Sheet, m: map<Key, Row>, todo: set<Key>, printed: seq<Row>) {
    && todo <= m.Keys
    && Members(printed) == FinishedOf(m, m.Keys - todo)
    && (forall i :: 0 <= i < |printed| ==>
      printed[i].sheet == sheet && FitsSheet(printed[i]) && KeyOf(env, printed[i]) !in todo)
    && (forall i, j :: 0 <= i < j < |printed| ==> KeyOf(env, printed[i]) != KeyOf(env, printed[j]))
  }

  lemma GatherOne(env: Env, sheet: Sheet, m: map<Key, Row>, todo: set<Key>, printed: seq<Row>, k: Key)
    requires Keyed(env, sheet, m) && Gathered(env, sheet, m, todo, printed) && k in todo
    ensures Gathered(env, sheet, m, todo - {k}, printed + [Finish(m[k])])
  {
    hide Finish, KeyOf, FinishedOf;
    FinishKeepsKey(env, m[k]);
    FinishedGrows(m, m.Keys - todo, k);
    assert m.Keys - (todo - {k}) == m.Keys - todo + {k};
    var x := Finish(m[k]);
    assert Members(printed + [x]) == Members(printed) + {x};
  }

  lemma SortGathered(env: Env, sheet: Sheet, m: map<Key, Row>, printed: seq<Row>)
    requires Gathered(env, sheet, m, {}, printed)
    ensures Ascending(RowLess(env), Sort(RowLess(env), printed)) && Members(Sort(RowLess(env), printed)) == Finished(m)
  {
    hide RowLess, KeyOf, FinishedOf, FitsSheet;
    forall i, j | 0 <= i < j < |printed|
      ensures RowLess(env)(printed[i], printed[j]) || RowLess(env)(printed[j], printed[i])
    {
      DifferentKeysSeparate(env, printed[i], printed[j]);
    }
    RowLessIsStrict(env);
    SortAscending(RowLess(env), printed);
    assert m.Keys - {} == m.Keys;
  }

  /** Finishing and sorting a sheet; the map is visited in any order. */
  method FinishSheet(env: Env, ghost sheet: Sheet, m: map<Key, Row>) returns (printed: seq<Row>)
    requires Keyed(env, sheet, m)
    ensures Ascending(RowLess(env), printed) && Members(printed) == Finished(m)
  {
    hide Finish, RowLess, Keyed, Ascending, Finished;
    printed := [];
    var todo := m.Keys;
    assert Gathered(env, sheet, m, todo, printed) by {
      assert m.Keys - m.Keys == {};
    }
    while todo != {}
      invariant Gathered(env, sheet, m, todo, printed)
      decreases |todo|
    {
      hide Gathered;
      ghost var some := Member(todo);
      var k: Key :| k in todo;
      assert k in m by {
        GatheredKeys(env, sheet, m, todo, printed);
      }
      GatherOne(env, sheet, m, todo, printed, k);
      printed := printed + [Finish(m[k])];
      todo := todo - {k};
    }
    SortGathered(env, sheet, m, printed);
    printed := Sort(RowLess(env), printed);
  }

  lemma GatheredKeys(env: Env, sheet: Sheet, m: map<Key, Row>, todo: set<Key>, printed: seq<Row>)
    requires Gathered(env, sheet, m, todo, printed)
    ensures todo <= m.Keys
  {
  }

  lemma FinishKeepsKey(env: Env, r: Row)
    ensures KeyOf(env, Finish(r)) == KeyOf(env, r) && Finish(r).start == r.start && Finish(r).sheet == r.sheet
            && Finish(r).mode == r.mode
    ensures Finish(r).calls == r.calls && Finish(r).official == r.official && Finish(r).settlement == r.settlement
            && Finish(r).spec == r.spec
  {
  }

  lemma RowsOfNone(env: Env)
    ensures forall sheet: Sheet :: SheetMap(env, Rows(env, []), sheet) == map[]
  {
  }

  lemma RowsGrow(env: Env, logs: seq<Log>, log: Log)
    ensures Rows(env, logs + [log]) == Rows(env, logs) + (if Billable(env, log) then [RowOf(env, log)] else [])
    ensures forall sheet: Sheet ::
              SheetMap(env, Rows(env, logs + [log]), sheet) ==
              if Billable(env, log) && RowOf(env, log).sheet == sheet
              then Put(env, SheetMap(env, Rows(env, logs), sheet), RowOf(env, log))
              else SheetMap(env, Rows(env, logs), sheet)
  {
    hide RowOf, Billable, Put;
    assert (logs + [log])[..|logs|] == logs;
    var rows := Rows(env, logs);
    var more := rows + [RowOf(env, log)];
    assert more[..|more| - 1] == rows;
    forall sheet: Sheet
      ensures SheetMap(env, more, sheet) ==
              if RowOf(env, log).sheet == sheet then Put(env, SheetMap(env, rows, sheet), RowOf(env, log))
              else SheetMap(env, rows, sheet)
    {
    }
    assert Rows(env, logs + [log]) == if Billable(env, log) then more else rows;
  }

  /** The grouping loop over the collapsed logs. */
  method Summarize(env: Env, logs: seq<Log>) returns (data: Summary)
    ensures IsSummary(env, Rows(env, logs), data)
  {
    hide RowOf, Billable, Put, RowLess, Rows, SheetMap, Finished, Ascending, Keyed;
    RowsOfNone(env);
    var text: map<Key, Row>, video: map<Key, Row>, image: map<Key, Row>, audio: map<Key, Row> :=
      map[], map[], map[], map[];
    for n := 0 to |logs|
      invariant text == SheetMap(env, Rows(env, logs[..n]), TextSheet)
      invariant video == SheetMap(env, Rows(env, logs[..n]), VideoSheet)
      invariant image == SheetMap(env, Rows(env, logs[..n]), ImageSheet)
      invariant audio == SheetMap(env, Rows(env, logs[..n]), AudioSheet)
    {
      assert logs[..n + 1] == logs[..n] + [logs[n]];
      RowsGrow(env, logs[..n], logs[n]);
      if Billable(env, logs[n]) {
        var r := RowOf(env, logs[n]);
        match r.sheet {
          case TextSheet => text := Put(env, text, r);
          case VideoSheet => video := Put(env, video, r);
          case ImageSheet => image := Put(env, image, r);
          case AudioSheet => audio := Put(env, audio, r);
        }
      }
    }
    assert logs[..|logs|] == logs;
    RowsFit(env, logs);
    SheetMapKeyed(env, Rows(env, logs), TextSheet);
    SheetMapKeyed(env, Rows(env, logs), VideoSheet);
    SheetMapKeyed(env, Rows(env, logs), ImageSheet);
    SheetMapKeyed(env, Rows(env, logs), AudioSheet);
    var t := FinishSheet(env, TextSheet, text);
    var v := FinishSheet(env, VideoSheet, video);
    var i := FinishSheet(env, ImageSheet, image);
    var a := FinishSheet(env, AudioSheet, audio);
    data := Summary(t, v, i, a);
  }

  /** buildBillingSummaryData */
  method BuildSummary(env: Env, logs: seq<Log>) returns (data: Summary, ghost collapsed: seq<Log>)
    ensures IsCollapse(env.fmt, logs, collapsed) && IsSummary(env, Rows(env, collapsed), data)
  {
    var out := Collapse(env.fmt, logs);
    collapsed := out;
    data := Summarize(env, out);
  }

  /** The summary does not depend on the order of the logs, nor on the order in which any map is visited. */
  lemma SummaryIgnoresOrder(env: Env, a: seq<Log>, b: seq<Log>, ca: seq<Log>, cb: seq<Log>, x: Summary, y: Summary)
    requires DistinctIds(a) && DistinctIds(b) && Members(a) == Members(b)
    requires IsCollapse(env.fmt, a, ca) && IsSummary(env, Rows(env, ca), x)
    requires IsCollapse(env.fmt, b, cb) && IsSummary(env, Rows(env, cb), y)
    ensures x == y
  {
    hide Rows, SheetMap, IsCollapse, RowLess;
    CollapseIgnoresOrder(env.fmt, a, b, ca, cb);
    RowLessIsStrict(env);
    forall sheet: Sheet ensures x.Of(sheet) == y.Of(sheet) {
      AscendingIsUnique(RowLess(env), x.Of(sheet), y.Of(sheet));
    }
    assert x.text == x.Of(TextSheet) && x.video == x.Of(VideoSheet) && x.image == x.Of(ImageSheet)
           && x.audio == x.Of(AudioSheet);
  }

  // ---------- Conservation ----------

  /** A column of the rows. */
  datatype Column = Calls | OfficialTotal | Settlement | UsageOf(line: nat) | CostOf(line: nat)

  function Nth(lines: Lines, n: nat): Line {
    if n == 0 then lines.a
    else if n == 1 then lines.b
    else if n == 2 then lines.c
    else if n == 3 then lines.d
    else lines.e
  }

  function Cell(r: Row, column: Column): real {
    match column
    case Calls => r.calls as real
    case OfficialTotal => r.official
    case Settlement => r.settlement
    case UsageOf(n) => Nth(r.lines, n).usage
    case CostOf(n) => Nth(r.lines, n).official
  }

  function Total(rows: seq<Row>, column: Column): real {
    if rows == [] then 0.0 else Total(rows[..|rows| - 1], column) + Cell(rows[|rows| - 1], column)
  }

  /** Merging adds every column, and finishing changes none. */
  lemma ColumnsAdd(env: Env, x: Row, y: Row, column: Column)
    ensures Cell(Merge(env, x, y), column) == Cell(x, column) + Cell(y, column)
    ensures Cell(Finish(x), column) == Cell(x, column)
  {
    hide MergeSpec;
  }

  function OfSheet(rows: seq<Row>, sheet: Sheet): seq<Row> {
    if rows == [] then [] else
      var last := rows[|rows| - 1];
      var rest := OfSheet(rows[..|rows| - 1], sheet);
      if last.sheet == sheet then rest + [last] else rest
  }

  /** The total of a map's rows, its keys read off a list. */
  ghost function MapTotal(m: map<Key, Row>, keys: seq<Key>, column: Column): real {
    if keys == [] then 0.0 else
      var k := keys[|keys| - 1];
      MapTotal(m, keys[..|keys| - 1], column) + (if k in m then Cell(m[k], column) else 0.0)
  }

  lemma {:induction false} PutAdds(env: Env, m: map<Key, Row>, r: Row, keys: seq<Key>, column: Column)
    requires NoRepeats(keys)
    ensures MapTotal(Put(env, m, r), keys, column) ==
            MapTotal(m, keys, column) + (if KeyOf(env, r) in keys then Cell(r, column) else 0.0)
  {
    hide Merge, Cell, KeyOf;
    if keys != [] {
      var init, k := keys[..|keys| - 1], keys[|keys| - 1];
      assert keys == init + [k];
      PutAdds(env, m, r, init, column);
      if KeyOf(env, r) in m {
        ColumnsAdd(env, m[KeyOf(env, r)], r, column);
      }
    }
  }

  lemma {:induction false} EmptyTotal(keys: seq<Key>, column: Column)
    ensures MapTotal(map[], keys, column) == 0.0
  {
    if keys != [] {
      EmptyTotal(keys[..|keys| - 1], column);
    }
  }

  lemma {:induction false} MapHoldsTotal(env: Env, rows: seq<Row>, sheet: Sheet, keys: seq<Key>, column: Column)
    requires NoRepeats(keys)
    requires forall i :: 0 <= i < |rows| && rows[i].sheet == sheet ==> KeyOf(env, rows[i]) in keys
    ensures MapTotal(SheetMap(env, rows, sheet), keys, column) == Total(OfSheet(rows, sheet), column)
  {
    hide Put, Cell, KeyOf;
    if rows == [] {
      EmptyTotal(keys, column);
    } else {
      var prefix, last := rows[..|rows| - 1], rows[|rows| - 1];
      MapHoldsTotal(env, prefix, sheet, keys, column);
      if last.sheet == sheet {
        PutAdds(env, SheetMap(env, prefix, sheet), last, keys, column);
        LastTotal(OfSheet(prefix, sheet), last, column);
      }
    }
  }

  lemma {:induction false} PrintedTotal(env: Env, m: map<Key, Row>, printed: seq<Row>, column: Column)
    requires forall i :: 0 <= i < |printed| ==>
             KeyOf(env, printed[i]) in m && Finish(m[KeyOf(env, printed[i])]) == printed[i]
    ensures Total(printed, column) == MapTotal(m, KeysOf(env, printed), column)
  {
    hide Finish, Cell, KeyOf;
    if printed != [] {
      var init, last := printed[..|printed| - 1], printed[|printed| - 1];
      PrintedTotal(env, m, init, column);
      ColumnsAdd(env, m[KeyOf(env, last)], last, column);
      assert KeysOf(env, printed)[..|init|] == KeysOf(env, init);
    }
  }

  /** The rows of a sheet and the keys of the map stand one to one. */
  lemma SheetRows(env: Env, rows: seq<Row>, sheet: Sheet, printed: seq<Row>)
    requires forall i :: 0 <= i < |rows| ==> FitsSheet(rows[i])
    requires IsSheet(env, rows, sheet, printed)
    ensures var m := SheetMap(env, rows, sheet);
            && NoRepeats(KeysOf(env, printed))
            && (forall i :: 0 <= i < |printed| ==>
              KeyOf(env, printed[i]) in m && Finish(m[KeyOf(env, printed[i])]) == printed[i])
            && (forall k <- m :: k in KeysOf(env, printed))
  {
    hide RowLess, Finish, KeyOf, SheetMap;
    SheetMapKeyed(env, rows, sheet);
    var m := SheetMap(env, rows, sheet);
    forall i | 0 <= i < |printed|
      ensures KeyOf(env, printed[i]) in m && Finish(m[KeyOf(env, printed[i])]) == printed[i]
    {
      assert printed[i] in Members(printed);
      var k :| k in m && Finish(m[k]) == printed[i];
      FinishKeepsKey(env, m[k]);
    }
    forall k | k in m ensures k in KeysOf(env, printed) {
      FinishKeepsKey(env, m[k]);
      assert Finish(m[k]) in Finished(m);
      assert Finish(m[k]) in Members(printed);
      var i :| 0 <= i < |printed| && printed[i] == Finish(m[k]);
      assert KeysOf(env, printed)[i] == k;
    }
    forall i, j | 0 <= i < j < |printed| ensures KeysOf(env, printed)[i] != KeysOf(env, printed)[j] {
      RowLessIsStrict(env);
      assert RowLess(env)(printed[i], printed[j]);
      assert printed[i] != printed[j];
    }
  }

  /** Each column of a sheet adds up to the same column over the sheet's logs. */
  lemma SheetConserves(env: Env, rows: seq<Row>, sheet: Sheet, printed: seq<Row>, column: Column)
    requires forall i :: 0 <= i < |rows| ==> FitsSheet(rows[i])
    requires IsSheet(env, rows, sheet, printed)
    ensures Total(printed, column) == Total(OfSheet(rows, sheet), column)
  {
    hide RowLess, Finish, KeyOf, SheetMap, Cell, Members;
    SheetMapKeyed(env, rows, sheet);
    SheetRows(env, rows, sheet, printed);
    PrintedTotal(env, SheetMap(env, rows, sheet), printed, column);
    MapHoldsTotal(env, rows, sheet, KeysOf(env, printed), column);
  }

  lemma SheetTotalGrows(rows: seq<Row>, last: Row, sheet: Sheet, column: Column)
    ensures Total(OfSheet(rows + [last], sheet), column) ==
            Total(OfSheet(rows, sheet), column) + (if last.sheet == sheet then Cell(last, column) else 0.0)
  {
    hide Cell, Total;
    assert (rows + [last])[..|rows|] == rows;
    LastTotal(OfSheet(rows, sheet), last, column);
  }

  lemma {:induction false} SheetsPartition(rows: seq<Row>, column: Column)
    ensures Total(rows, column) ==
            Total(OfSheet(rows, TextSheet), column) + Total(OfSheet(rows, VideoSheet), column) +
            Total(OfSheet(rows, ImageSheet), column) + Total(OfSheet(rows, AudioSheet), column)
  {
    if rows == [] {
    } else {
      hide Cell, Total, OfSheet;
      var prefix, last := rows[..|rows| - 1], rows[|rows| - 1];
      assert rows == prefix + [last];
      SheetsPartition(prefix, column);
      LastTotal(prefix, last, column);
      SheetTotalGrows(prefix, last, TextSheet, column);
      SheetTotalGrows(prefix, last, VideoSheet, column);
      SheetTotalGrows(prefix, last, ImageSheet, column);
      SheetTotalGrows(prefix, last, AudioSheet, column);
    }
  }

  lemma LastTotal(rows: seq<Row>, last: Row, column: Column)
    ensures Total(rows + [last], column) == Total(rows, column) + Cell(last, column)
  {
    hide Cell;
    assert (rows + [last])[..|rows|] == rows;
  }

  function SummaryTotal(data: Summary, column: Column): real {
    Total(data.text, column) + Total(data.video, column) + Total(data.image, column) + Total(data.audio, column)
  }

  /** Over the four sheets, every column adds up to the same column over the billable logs: no call and no amount is
      lost or counted twice. */
  lemma SummaryConserves(env: Env, logs: seq<Log>, data: Summary, column: Column)
    requires IsSummary(env, Rows(env, logs), data)
    ensures SummaryTotal(data, column) == Total(Rows(env, logs), column)
  {
    hide IsSheet, Rows, Cell, Total;
    RowsFit(env, logs);
    var rows := Rows(env, logs);
    SheetConserves(env, rows, TextSheet, data.Of(TextSheet), column);
    SheetConserves(env, rows, VideoSheet, data.Of(VideoSheet), column);
    SheetConserves(env, rows, ImageSheet, data.Of(ImageSheet), column);
    SheetConserves(env, rows, AudioSheet, data.Of(AudioSheet), column);
    SheetsPartition(rows, column);
  }

  function BillableCount(env: Env, logs: seq<Log>): nat {
    if logs == [] then 0
    else BillableCount(env, logs[..|logs| - 1]) + (if Billable(env, logs[|logs| - 1]) then 1 else 0)
  }

  lemma {:induction false} OneCallEach(env: Env, logs: seq<Log>)
    ensures Total(Rows(env, logs), Calls) == BillableCount(env, logs) as real
  {
    hide Billable;
    if logs != [] {
      var prefix, last := logs[..|logs| - 1], logs[|logs| - 1];
      assert Cell(RowOf(env, last), Calls) == 1.0;
      OneCallEach(env, prefix);
      hide RowOf, Cell, Total;
      LastTotal(Rows(env, prefix), RowOf(env, last), Calls);
    }
  }

  /** The calls of the summary are the billable collapsed logs. */
  lemma CallsAreBillableLogs(env: Env, logs: seq<Log>, data: Summary)
    requires IsSummary(env, Rows(env, logs), data)
    ensures SummaryTotal(data, Calls) == BillableCount(env, logs) as real
  {
    hide IsSummary, Rows, SummaryTotal;
    SummaryConserves(env, logs, data, Calls);
    OneCallEach(env, logs);
  }

  // ---------- One row ----------

  /** The rows of one sheet and key. */
  function OfKey(env: Env, rows: seq<Row>, sheet: Sheet, k: Key): seq<Row> {
    if rows == [] then [] else
      var last := rows[|rows| - 1];
      var rest := OfKey(env, rows[..|rows| - 1], sheet, k);
      if last.sheet == sheet && KeyOf(env, last) == k then rest + [last] else rest
  }

  /** The specifications of the rows. */
  ghost function Specs(rows: seq<Row>): set<string> {
    set i | 0 <= i < |rows| && TrimSpace(rows[i].spec) != "" :: TrimSpace(rows[i].spec)
  }

  /** What specifications are condensed to: nothing, the only one, or a note that there are several. */
  ghost predicate Condenses(env: Env, specs: set<string>, spec: string) {
    && (specs == {} ==> spec == "")
    && (forall s :: specs == {s} ==> spec == s)
    && ((exists s, t :: s in specs && t in specs && s != t) ==>
          spec == if env.english then "Multiple specifications" else "多规格")
    && (spec == "" ==> specs == {})
  }

  lemma MergeCondenses(env: Env, specs: set<string>, current: string, next: string)
    requires Condenses(env, specs, TrimSpace(current)) && "" !in specs
    ensures Condenses(env, specs + (if TrimSpace(next) == "" then {} else {TrimSpace(next)}),
            TrimSpace(MergeSpec(env, current, next)))
  {
    hide TrimSpace;
    var x, y := TrimSpace(current), TrimSpace(next);
    assert TrimSpace(MergeSpec(env, current, next)) == MergeSpec(env, current, next);
    if specs != {} && y != "" {
      var s := Member(specs);
      if specs == {s} {
        assert x == s;
      } else {
        assert exists t :: t in specs && t != s by {
          assert specs - {s} != {};
          var t := Member(specs - {s});
        }
        assert x == MultipleSpecs(env);
      }
      forall u | specs + {y} == {u} ensures MergeSpec(env, current, next) == u {
        assert s in specs + {y} && y in specs + {y};
      }
    }
  }

  lemma SpecsGrow(rows: seq<Row>, last: Row)
    ensures Specs(rows + [last]) == Specs(rows) + (if TrimSpace(last.spec) == "" then {} else {TrimSpace(last.spec)})
  {
    hide TrimSpace;
    var more := rows + [last];
    assert more[|rows|] == last && forall i :: 0 <= i < |rows| ==> more[i] == rows[i];
    forall s | s in Specs(rows) ensures s in Specs(more) {
      var i :| 0 <= i < |rows| && TrimSpace(rows[i].spec) == s;
      assert TrimSpace(more[i].spec) == s;
    }
    assert TrimSpace(more[|rows|].spec) != "" ==> TrimSpace(last.spec) in Specs(more);
  }

  /** A row of the map sums up the logs of its key. */
  ghost predicate SumsUp(env: Env, rows: seq<Row>, r: Row) {
    && rows != []
    && r.start == rows[0].start
    && (forall column: Column :: Cell(r, column) == Total(rows, column))
    && Condenses(env, Specs(rows), TrimSpace(r.spec))
  }

  lemma {:induction false} RowSumsUp(env: Env, rows: seq<Row>, sheet: Sheet, k: Key)
    requires k in SheetMap(env, rows, sheet)
    ensures SumsUp(env, OfKey(env, rows, sheet, k), SheetMap(env, rows, sheet)[k])
  {
    hide SumsUp, Merge, KeyOf;
    var prefix, last := rows[..|rows| - 1], rows[|rows| - 1];
    if last.sheet == sheet && KeyOf(env, last) == k {
      if k in SheetMap(env, prefix, sheet) {
        RowSumsUp(env, prefix, sheet, k);
        MergeSumsUp(env, OfKey(env, prefix, sheet, k), SheetMap(env, prefix, sheet)[k], last);
      } else {
        NoneOfKey(env, prefix, sheet, k);
        OneSumsUp(env, last);
        assert OfKey(env, rows, sheet, k) == [last];
      }
    } else {
      RowSumsUp(env, prefix, sheet, k);
    }
  }

  lemma {:induction false} NoneOfKey(env: Env, rows: seq<Row>, sheet: Sheet, k: Key)
    requires k !in SheetMap(env, rows, sheet)
    ensures OfKey(env, rows, sheet, k) == []
  {
    hide Merge, KeyOf;
    if rows != [] {
      NoneOfKey(env, rows[..|rows| - 1], sheet, k);
    }
  }

  lemma OneSumsUp(env: Env, r: Row)
    ensures SumsUp(env, [r], r)
  {
    hide TrimSpace, Cell;
    assert [r][..0] == [];
    assert [] + [r] == [r] && Specs([]) == {};
    forall column: Column ensures Cell(r, column) == Total([r], column) {
      LastTotal([], r, column);
    }
    SpecsGrow([], r);
  }

  lemma MergeSumsUp(env: Env, rows: seq<Row>, r: Row, last: Row)
    requires SumsUp(env, rows, r)
    ensures SumsUp(env, rows + [last], Merge(env, r, last))
  {
    hide TrimSpace, Cell, Condenses, MergeSpec;
    forall column: Column ensures Cell(Merge(env, r, last), column) == Total(rows + [last], column) {
      LastTotal(rows, last, column);
      ColumnsAdd(env, r, last, column);
    }
    SpecsGrow(rows, last);
    MergeCondenses(env, Specs(rows), r.spec, last.spec);
  }

  /** A printed row holds the sums of exactly the billable logs of its key, and condenses their specifications. */
  lemma PrintedRowSumsUp(env: Env, rows: seq<Row>, sheet: Sheet, printed: seq<Row>, i: nat)
    requires forall j :: 0 <= j < |rows| ==> FitsSheet(rows[j])
    requires IsSheet(env, rows, sheet, printed) && i < |printed|
    ensures SumsUp(env, OfKey(env, rows, sheet, KeyOf(env, printed[i])), printed[i])
  {
    hide IsSheet, Finish, KeyOf, SheetMap, Condenses, TrimSpace, Cell, Total;
    SheetRows(env, rows, sheet, printed);
    var k := KeyOf(env, printed[i]);
    var r := SheetMap(env, rows, sheet)[k];
    RowSumsUp(env, rows, sheet, k);
    FinishKeepsKey(env, r);
    forall column: Column ensures Cell(printed[i], column) == Cell(r, column) {
      ColumnsAdd(env, r, r, column);
    }
  }

  /** The unit of a price: per million tokens, or per item. */
  function UnitOf(r: Row, line: nat): real {
    match r.sheet
    case TextSheet | AudioSheet => if line < 4 then MILLION else 1.0
    case VideoSheet => if line == 0 then MILLION else Factor(r.mode)
    case ImageSheet => Factor(r.mode)
  }

  /** The price of a printed quantity is its cost divided by its usage: price times usage gives the cost back. */
  lemma PricesAreWeighted(env: Env, r: Row, n: nat)
    requires Nth(r.lines, n).usage > 0.0
    requires HasLine(r.sheet, n) && (r.sheet == ImageSheet ==> r.lines.a.official == r.official)
    ensures var l := Nth(Finish(r).lines, n); l.price * l.usage == l.official * UnitOf(r, n)
  {
    hide Reprice;
    RepriceWeighted(Nth(r.lines, n), UnitOf(r, n));
  }

  lemma RepriceWeighted(line: Line, factor: real)
    requires line.usage > 0.0
    ensures var l := Reprice(line, factor);
            l == line.(price := line.official * factor / line.usage) && l.price * l.usage == l.official * factor
  {
    assert line.official * factor / line.usage * line.usage == line.official * factor;
  }

  lemma ImageRowBalances(env: Env, log: Log)
    requires RowOf(env, log).sheet == ImageSheet
    ensures Cell(RowOf(env, log), CostOf(0)) == Cell(RowOf(env, log), OfficialTotal)
  {
    hide FieldText, FieldNumber, SheetOf, TextComponent, VideoComponent, AudioComponent, SettlementUSD, RoutedModel,
         ChannelSettlement, ImageMode, ImageLine, ImageSpec, Explain, Official, Quantities;
    ImageExplains(env, log, SettlementUSD(env, log));
  }

  lemma {:induction false} ImageCostsBalance(env: Env, logs: seq<Log>, k: Key)
    ensures var rows := OfKey(env, Rows(env, logs), ImageSheet, k); Total(rows, CostOf(0)) == Total(rows, OfficialTotal)
  {
    hide RowOf, Billable, Cell, KeyOf;
    if logs != [] {
      var prefix, last := logs[..|logs| - 1], logs[|logs| - 1];
      ImageCostsBalance(env, prefix, k);
      if Billable(env, last) && RowOf(env, last).sheet == ImageSheet {
        ImageRowBalances(env, last);
        LastTotal(OfKey(env, Rows(env, prefix), ImageSheet, k), RowOf(env, last), CostOf(0));
        LastTotal(OfKey(env, Rows(env, prefix), ImageSheet, k), RowOf(env, last), OfficialTotal);
      }
    }
  }

  /** The quantities a sheet prints a price for. */
  predicate HasLine(sheet: Sheet, line: nat) {
    match sheet case VideoSheet => line <= 1 case ImageSheet => line == 0 case _ => line <= 4
  }

  /** In a finished summary, price times usage is cost for every quantity that was used. */
  lemma SummaryPricesAreWeighted(env: Env, logs: seq<Log>, data: Summary, sheet: Sheet, i: nat, n: nat)
    requires IsSummary(env, Rows(env, logs), data) && i < |data.Of(sheet)|
    requires HasLine(sheet, n) && Nth(data.Of(sheet)[i].lines, n).usage > 0.0
    ensures var r := data.Of(sheet)[i];
            var l := Nth(r.lines, n); l.price * l.usage == l.official * UnitOf(r, n)
  {
    hide IsSheet, Rows, Finish, KeyOf, SheetMap, SumsUp, Total, Nth, UnitOf, Keyed, OfKey, FitsSheet, KeysOf, HasLine;
    var rows, printed := Rows(env, logs), data.Of(sheet);
    RowsFit(env, logs);
    SheetRows(env, rows, sheet, printed);
    SheetMapKeyed(env, rows, sheet);
    var k := KeyOf(env, printed[i]);
    var r := SheetMap(env, rows, sheet)[k];
    RowIsBalanced(env, logs, sheet, k);
    ColumnsAdd(env, r, r, UsageOf(n));
    UnitKept(r, n);
    PricesAreWeighted(env, r, n);
  }

  lemma UnitKept(r: Row, n: nat)
    ensures UnitOf(Finish(r), n) == UnitOf(r, n)
  {
  }

  lemma RowIsBalanced(env: Env, logs: seq<Log>, sheet: Sheet, k: Key)
    requires k in SheetMap(env, Rows(env, logs), sheet)
    ensures var r := SheetMap(env, Rows(env, logs), sheet)[k];
            r.sheet == sheet && (sheet == ImageSheet ==> r.lines.a.official == r.official)
  {
    hide Rows, SheetMap, Total, OfKey, Condenses, KeyOf;
    RowsFit(env, logs);
    SheetMapKeyed(env, Rows(env, logs), sheet);
    RowSumsUp(env, Rows(env, logs), sheet, k);
    ImageCostsBalance(env, logs, k);
    var r := SheetMap(env, Rows(env, logs), sheet)[k];
    assert Cell(r, CostOf(0)) == r.lines.a.official && Cell(r, OfficialTotal) == r.official;
  }

  // ---------- The printed totals ----------

  /** billingSummaryDisplayAmount, by the rate of the display currency. */
  function Display(rate: real, usd: real): real {
    usd * rate
  }

  /** The running total of a sheet. */
  method SheetTotal(rows: seq<Row>, rate: real) returns (printed: real)
    ensures printed == Display(rate, Total(rows, Settlement))
  {
    var sum := 0.0;
    for n := 0 to |rows|
      invariant sum == Total(rows[..n], Settlement)
    {
      assert rows[..n + 1][..n] == rows[..n];
      sum := sum + rows[n].settlement;
    }
    assert rows[..|rows|] == rows;
    printed := Display(rate, sum);
  }

  lemma DisplayAdds(rate: real, a: real, b: real, c: real, d: real)
    ensures Display(rate, a) + Display(rate, b) + Display(rate, c) + Display(rate, d) == Display(rate, a + b + c + d)
  {
  }

  /** The four printed totals together are what the billable logs settle at. */
  lemma PrintedTotalsAreSettlements(env: Env, logs: seq<Log>, data: Summary, rate: real)
    requires IsSummary(env, Rows(env, logs), data)
    ensures Display(rate, Total(data.text, Settlement)) + Display(rate, Total(data.video, Settlement)) +
            Display(rate, Total(data.image, Settlement)) + Display(rate, Total(data.audio, Settlement)) ==
            Display(rate, Total(Rows(env, logs), Settlement))
  {
    hide IsSummary, Rows, Display;
    SummaryConserves(env, logs, data, Settlement);
    DisplayAdds(rate, Total(data.text, Settlement), Total(data.video, Settlement), Total(data.image, Settlement),
      Total(data.audio, Settlement));
  }
}
