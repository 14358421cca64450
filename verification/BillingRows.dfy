/** What the row of a log holds, in terms of the stored fields: sheet, mode, the usage, price and cost of each
    column, the official total and the settlement (controller/billing_summary_export.go). */
module BillingRows {
  import opened Options
  import opened Text
  import opened BillingLog
  import opened BillingComponents

  // ---------- Looking fields up ----------

  /** A number, or a text that reads as one. */
  ghost predicate IsNumber(fmt: Format, v: Json, n: real) {
    v == Number(n) || (v.Words? && fmt.parse(TrimSpace(v.s)) == Some(n))
  }

  ghost predicate HoldsNumber(fmt: Format, other: Fields, key: string) {
    key in other && exists n :: IsNumber(fmt, other[key], n)
  }

  /** A lookup reads the number under the first key that holds one; without any it reads 0. A lookup of quantities reads
      0 also where the number is negative. */
  lemma {:induction false} NumberIsTheFirst(env: Env, other: Fields, keys: seq<string>, i: nat, n: real)
    requires i < |keys| && keys[i] in other && IsNumber(env.fmt, other[keys[i]], n)
    requires forall j :: 0 <= j < i ==> !HoldsNumber(env.fmt, other, keys[j])
    ensures FieldNumber(env.fmt, other, keys) == Some(n) && First(env, other, keys) == n
    ensures Positive(env, other, keys) == if n > 0.0 then n else 0.0
    decreases i
  {
    if i > 0 {
      assert forall j :: 0 <= j < i - 1 ==> keys[1..][j] == keys[j + 1];
      assert keys[0] in other && AsNumber(env.fmt, other[keys[0]]).Some? ==>
               IsNumber(env.fmt, other[keys[0]], AsNumber(env.fmt, other[keys[0]]).value);
      NumberIsTheFirst(env, other, keys[1..], i - 1, n);
    }
  }

  lemma {:induction false} NoNumberReadsNothing(env: Env, other: Fields, keys: seq<string>)
    requires forall j :: 0 <= j < |keys| ==> !HoldsNumber(env.fmt, other, keys[j])
    ensures FieldNumber(env.fmt, other, keys) == None && First(env, other, keys) == 0.0 == Positive(env, other, keys)
  {
    if keys != [] {
      assert keys[0] in other && AsNumber(env.fmt, other[keys[0]]).Some? ==>
               IsNumber(env.fmt, other[keys[0]], AsNumber(env.fmt, other[keys[0]]).value);
      NoNumberReadsNothing(env, other, keys[1..]);
    }
  }

  /** How a JSON value prints; null prints as nothing. */
  ghost function Shown(fmt: Format, v: Json): string {
    if v.Words? then v.s
    else if v.Number? then fmt.show(v.r)
    else if v == Flag(true) then "true"
    else if v == Flag(false) then "false"
    else if v.Nested? then v.text
    else ""
  }

  ghost predicate HoldsText(fmt: Format, other: Fields, key: string) {
    key in other && TrimSpace(Shown(fmt, other[key])) != ""
  }

  /** A text lookup reads the trimmed text of the first key that prints as something, or nothing. */
  lemma {:induction false} TextIsTheFirst(fmt: Format, other: Fields, keys: seq<string>, i: nat)
    requires i < |keys| && HoldsText(fmt, other, keys[i])
    requires forall j :: 0 <= j < i ==> !HoldsText(fmt, other, keys[j])
    ensures FieldText(fmt, other, keys) == TrimSpace(Shown(fmt, other[keys[i]]))
    decreases i
  {
    hide TrimSpace;
    if i > 0 {
      assert forall j :: 0 <= j < i - 1 ==> keys[1..][j] == keys[j + 1];
      TextIsTheFirst(fmt, other, keys[1..], i - 1);
    }
  }

  lemma {:induction false} NoTextReadsNothing(fmt: Format, other: Fields, keys: seq<string>)
    requires forall j :: 0 <= j < |keys| ==> !HoldsText(fmt, other, keys[j])
    ensures FieldText(fmt, other, keys) == ""
  {
    hide TrimSpace;
    if keys != [] {
      NoTextReadsNothing(fmt, other, keys[1..]);
    }
  }

  /** A field counts as set when it is true, a number other than 0, or the text "true" in any case, or "1". */
  lemma TruthExactly(env: Env, other: Fields, key: string)
    ensures Truth(env, other, key) <==>
            && key in other
            && (|| other[key] == Flag(true)
                || (other[key].Number? && other[key] != Number(0.0))
                || (other[key].Words? && TrimSpace(other[key].s) == "1")
                || (other[key].Words? && env.fmt.lower(TrimSpace(other[key].s)) == "true"))
  {
    hide TrimSpace;
  }

  // ---------- What was charged, and the discount ----------

  /** The charge in quota: a delta is its own log's quota unless it states the task's total, settled logs round the
      total they state, other logs cut it off, and without any total the log's quota counts. */
  lemma ChargeExactly(env: Env, log: Log)
    ensures var phase := PhaseOf(env.fmt, log);
            var total := FieldNumber(env.fmt, log.other, ["video_final_quota", "actual_quota"]);
            var billed := FieldNumber(env.fmt, log.other, ["video_billed_quota"]);
            var delta := phase in {"delta_charge", "delta_refund"};
            var settled := delta || phase in {"settlement_merged", "settlement_marker"};
            var quota := FinalQuota(env, log);
            && (settled && total.Some? && total.value >= 0.0 ==>
                  quota as real <= total.value + 0.5 < quota as real + 1.0)
            && (delta && (total.None? || total.value < 0.0) ==> quota == log.quota)
            && (!settled && total.Some? && total.value > 0.0 ==> quota as real <= total.value < quota as real + 1.0)
            && (!delta && (total.None? || (total.value <= 0.0 && (settled ==> total.value < 0.0))) ==>
                  if billed.Some? && billed.value > 0.0 then quota as real <= billed.value < quota as real + 1.0
                  else quota == log.quota)
  {
    hide FieldNumber, FieldText;
  }

  /** A positive charge is worth its quota over the quota of a dollar: the log's own, the configured one, or 1. */
  lemma ChargeInDollars(env: Env, log: Log)
    ensures var usd, own := SettlementUSD(env, log), Positive(env, log.other, ["video_quota_per_unit"]);
            var unit := if own > 0.0 then own else if env.quotaPerUnit > 0.0 then env.quotaPerUnit else 1.0;
            usd * unit == if FinalQuota(env, log) > 0 then FinalQuota(env, log) as real else 0.0
  {
    hide FieldNumber, FinalQuota;
    Cancel(FinalQuota(env, log) as real, QuotaPerUnit(env, log.other));
  }

  ghost function Bounded(x: real): real {
    if x < 0.0 then 0.0 else if x <= 1000.0 then x else 1000.0
  }

  /** Here only numbers count, not texts that read as one. */
  ghost function NumberOr(other: Fields, key: string, default: real): real {
    if key in other && other[key].Number? then other[key].r else default
  }

  /** The operating discount: the stored one, or the price discount (100 when absent) plus the operating cost (0 when
      absent), each and their sum kept between 0 and 1000. */
  lemma DiscountExactly(other: Fields)
    ensures "channel_price_discount_percent" in other && other["channel_price_discount_percent"].Number? ==>
              other["channel_price_discount_percent"] == Number(OperatingDiscount(other))
    ensures !("channel_price_discount_percent" in other && other["channel_price_discount_percent"].Number?) ==>
              OperatingDiscount(other) ==
              Bounded(Bounded(NumberOr(other, "price_discount_percent", 100.0))
                      + Bounded(NumberOr(other, "operating_cost_percent", 0.0)))
  {
  }

  /** The settlement of a row is its official total under the discount, a negative one counting as 0; without an
      official total it is the charge. */
  lemma SettlementExactly(env: Env, log: Log)
    ensures var r, d := RowOf(env, log), OperatingDiscount(log.other);
            && (r.official > 0.0 && d >= 0.0 ==> r.settlement * 100.0 == r.official * d)
            && (r.official > 0.0 && d < 0.0 ==> r.settlement == 0.0)
            && (r.official <= 0.0 ==> r.settlement == SettlementUSD(env, log))
  {
    hide ComponentOf, OperatingDiscount, SettlementUSD, RoutedModel, SheetOf;
  }

  /** The total that the charge implies: the charge without the discount, or the charge itself under a discount that is
      not positive. */
  ghost predicate Implied(env: Env, log: Log, official: real) {
    var usd, d := SettlementUSD(env, log), OperatingDiscount(log.other);
    if d > 0.0 then official * d == usd * 100.0 else official == usd
  }

  lemma FallbackIsImplied(env: Env, log: Log)
    ensures Implied(env, log, FallbackOfficial(log.other, SettlementUSD(env, log)))
  {
    hide OperatingDiscount, SettlementUSD;
    var usd, d := SettlementUSD(env, log), OperatingDiscount(log.other);
    if d > 0.0 {
      Cancel(usd * 100.0, d);
    }
  }

  // ---------- Text ----------

  /** A ratio that is not positive counts as 1. */
  ghost function Factored(env: Env, other: Fields, keys: seq<string>): real {
    if First(env, other, keys) > 0.0 then First(env, other, keys) else 1.0
  }

  /** A price per million tokens: twice the ratio, or the tier's own price where tiers priced the request. */
  ghost predicate IsPrice(env: Env, other: Fields, tier: string, ratio: real, price: real) {
    if Truth(env, other, "request_tier_pricing") && Positive(env, other, [tier]) > 0.0
    then price == Positive(env, other, [tier])
    else price == 2.0 * ratio
  }

  /** Usage times price, per million. */
  ghost predicate Costs(line: Line, price: real) {
    line.price == price && line.official * 1_000_000.0 == line.usage * price
  }

  lemma PerMillionCosts(usage: real, price: real)
    ensures Costs(PerMillion(usage, price), price)
  {
    Cancel(usage * price, MILLION);
  }

  /** A text log with a price per call: one call at that price and nothing else. */
  lemma CallRow(env: Env, log: Log)
    requires SheetOf(env, log.other) == TextSheet && First(env, log.other, ["global_model_price", "model_price"]) > 0.0
    ensures var r, price := RowOf(env, log), First(env, log.other, ["global_model_price", "model_price"]);
            && r.lines.e == Line(1.0, price, price) && r.official == price
            && r.lines.a == r.lines.b == r.lines.c == r.lines.d == Line(0.0, 0.0, 0.0)
  {
    hide First, SheetOf, SettlementUSD, RoutedModel, ChannelSettlement;
  }

  /** The tokens of a text log. Cached tokens are taken out of the input unless the log states its billed input or
      counts like Anthropic. */
  ghost predicate TokenUsages(env: Env, log: Log, l: Lines) {
    var o, prompt := log.other, log.promptTokens as real;
    var billed := Positive(env, o, ["tier_billed_input_tokens", "text_input"]);
    var output, written := Positive(env, o, ["text_output"]), Positive(env, o, ["cache_write_tokens"]);
    var made := Positive(env, o, ["cache_creation_tokens"]);
    var split := Positive(env, o, ["cache_creation_tokens_5m"]) + Positive(env, o, ["cache_creation_tokens_1h"]);
    && (billed > 0.0 ==> l.a.usage == billed)
    && (billed == 0.0 && Lower(env, o, ["usage_semantic"]) == "anthropic" ==> l.a.usage == prompt)
    && (billed == 0.0 && Lower(env, o, ["usage_semantic"]) != "anthropic" ==>
          var rest := prompt - l.c.usage - l.d.usage;
          l.a.usage == if rest > 0.0 then rest else 0.0)
    && l.b.usage == (if output > 0.0 then output else log.completionTokens as real)
    && l.c.usage == (if written > 0.0 then written else if made >= split then made else split)
    && l.d.usage == Positive(env, o, ["cache_tokens", "cache_read_tokens", "cached_tokens", "prompt_cache_hit_tokens"])
  }

  /** Input at the model's ratio, output, cache writes and cache reads each at their own multiple of it. */
  ghost predicate TokenPrices(env: Env, other: Fields, input: real, output: real, written: real, read: real) {
    var ratio := First(env, other, ["global_model_ratio", "model_ratio"]);
    && IsPrice(env, other, "tier_official_input_unit_price", ratio, input)
    && IsPrice(env, other, "tier_official_output_unit_price",
               ratio * Factored(env, other, ["global_completion_ratio", "completion_ratio"]), output)
    && IsPrice(env, other, "tier_official_cache_write_unit_price",
               ratio * Factored(env, other, ["global_create_cache_ratio", "cache_creation_ratio"]), written)
    && IsPrice(env, other, "tier_official_cache_read_unit_price",
               ratio * Factored(env, other, ["global_cache_ratio", "cache_ratio"]), read)
  }

  lemma BasePricesFit(env: Env, other: Fields)
    ensures var p := BasePrices(env, other); TokenPrices(env, other, p.input, p.output, p.cacheWrite, p.cacheRead)
  {
    hide First, Positive, Truth;
  }

  lemma TokenLinesFit(env: Env, log: Log)
    ensures var l := TokenLines(env, log);
            && TokenUsages(env, log, l)
            && TokenPrices(env, log.other, l.a.price, l.b.price, l.c.price, l.d.price)
            && Costs(l.a, l.a.price) && Costs(l.b, l.b.price) && Costs(l.c, l.c.price) && Costs(l.d, l.d.price)
            && l.e == Line(0.0, 0.0, 0.0)
  {
    hide FieldNumber, Lower, BasePrices, TokenPrices, Costs;
    BasePricesFit(env, log.other);
    var l := TokenLines(env, log);
    PerMillionCosts(l.a.usage, l.a.price);
    PerMillionCosts(l.b.usage, l.b.price);
    PerMillionCosts(l.c.usage, l.c.price);
    PerMillionCosts(l.d.usage, l.d.price);
  }

  /** The part of the total that falls to a column's share of the usage. */
  ghost predicate Shared(line: Line, official: real, usage: real) {
    usage > 0.0 ==> line.official * usage == official * line.usage
  }

  lemma SharesFit(lines: Lines, official: real)
    ensures var l, u := Spread(lines, official), Usage(lines);
            && Shared(l.a, official, u) && Shared(l.b, official, u)
            && Shared(l.c, official, u) && Shared(l.d, official, u)
  {
    hide Share, Shared;
    var u := Usage(lines);
    if u > 0.0 {
      ShareFits(lines.a, official, u);
      ShareFits(lines.b, official, u);
      ShareFits(lines.c, official, u);
      ShareFits(lines.d, official, u);
    }
    assert u <= 0.0 ==> forall line: Line :: Shared(line, official, u) by {
      NothingShared(official, u);
    }
  }

  lemma ShareFits(line: Line, official: real, u: real)
    requires u > 0.0
    ensures Shared(Share(line, official, u), official, u)
  {
    Cancel(official * line.usage, u);
  }

  lemma NothingShared(official: real, u: real)
    ensures u <= 0.0 ==> forall line: Line :: Shared(line, official, u)
  {
  }

  /** What the quantities cost at their prices, in millionths of a dollar. */
  ghost function Millionths(l: Lines): real {
    l.a.usage * l.a.price + l.b.usage * l.b.price + l.c.usage * l.c.price + l.d.usage * l.d.price
  }

  /** A text log without a price per call: the tokens of each kind at their price. When they cost nothing, the total is
      the one that the charge implies, shared by usage. */
  lemma TokenRow(env: Env, log: Log)
    requires SheetOf(env, log.other) == TextSheet
    requires First(env, log.other, ["global_model_price", "model_price"]) <= 0.0
    ensures var r := RowOf(env, log);
            var l, cost := r.lines, Millionths(r.lines);
            var usage := l.a.usage + l.b.usage + l.c.usage + l.d.usage;
            && TokenUsages(env, log, l)
            && TokenPrices(env, log.other, l.a.price, l.b.price, l.c.price, l.d.price)
            && l.e == Line(0.0, 0.0, 0.0)
            && (cost > 0.0 ==>
                  && Costs(l.a, l.a.price) && Costs(l.b, l.b.price) && Costs(l.c, l.c.price) && Costs(l.d, l.d.price)
                  && r.official * 1_000_000.0 == cost)
            && (cost <= 0.0 ==>
                  && Implied(env, log, r.official)
                  && Shared(l.a, r.official, usage) && Shared(l.b, r.official, usage)
                  && Shared(l.c, r.official, usage) && Shared(l.d, r.official, usage))
  {
    hide First, SheetOf, SettlementUSD, RowOf, TokenLines, TokenUsages, TokenPrices, FallbackOfficial, Implied, Shared,
         Costs, Cost, Spread, Millionths;
    var lines, total := TokenLines(env, log), FallbackOfficial(log.other, SettlementUSD(env, log));
    LinesOfTokenRow(env, log);
    TokenLinesFit(env, log);
    SumOfCosts(lines);
    SpreadKeeps(lines, total);
    FallbackIsImplied(env, log);
    SharesFit(lines, total);
    SpreadFits(env, log, lines, total);
  }

  lemma LinesOfTokenRow(env: Env, log: Log)
    requires SheetOf(env, log.other) == TextSheet
    requires First(env, log.other, ["global_model_price", "model_price"]) <= 0.0
    ensures var r, lines := RowOf(env, log), TokenLines(env, log);
            if Cost(lines) > 0.0 then r.lines == lines && r.official == Cost(lines)
            else var total := FallbackOfficial(log.other, SettlementUSD(env, log));
                 r.lines == Spread(lines, total) && r.official == total
  {
    hide First, SheetOf, SettlementUSD, RoutedModel, ChannelSettlement, TokenLines, FallbackOfficial, Cost, Spread;
  }

  lemma SumOfCosts(l: Lines)
    requires Costs(l.a, l.a.price) && Costs(l.b, l.b.price) && Costs(l.c, l.c.price) && Costs(l.d, l.d.price)
    requires l.e == Line(0.0, 0.0, 0.0)
    ensures Cost(l) * 1_000_000.0 == Millionths(l)
  {
  }

  lemma SpreadKeeps(l: Lines, official: real)
    ensures var k := Spread(l, official);
            && k.e == l.e && k.a.usage == l.a.usage && k.b.usage == l.b.usage && k.c.usage == l.c.usage
            && k.d.usage == l.d.usage && k.a.price == l.a.price && k.b.price == l.b.price && k.c.price == l.c.price
            && k.d.price == l.d.price && Millionths(k) == Millionths(l)
  {
  }

  lemma SpreadFits(env: Env, log: Log, lines: Lines, official: real)
    requires TokenUsages(env, log, lines)
    ensures TokenUsages(env, log, Spread(lines, official))
  {
    hide Positive, Lower;
  }

  // ---------- Video ----------

  /** How a video is billed: by seconds, by pieces, by tokens, or by calls, the first that applies. */
  ghost predicate VideoModeFits(env: Env, o: Fields, mode: Mode) {
    var stated, lane := Lower(env, o, ["billing_mode"]), Lower(env, o, ["video_billing_lane", "video_rule_unit"]);
    var seconds :=
      || stated == "video_per_second" || Contains(lane, "per_second")
      || Positive(env, o, ["global_video_price_per_second", "video_price_per_second", "seconds"]) > 0.0;
    var pieces :=
      || stated == "video_per_video" || Contains(lane, "per_video") || Contains(lane, "per_item")
      || Positive(env, o, ["global_video_price_per_video", "video_price_per_video", "video_count"]) > 0.0;
    var tokens :=
      || stated in {"video_token", "video_token_output"} || Contains(lane, "per_token")
      || Positive(env, o, ["video_output_tokens", "video_total_tokens"]) > 0.0;
    && (mode == PerSecond <==> seconds)
    && (mode == PerVideo <==> !seconds && pieces)
    && (mode == ByToken <==> !seconds && !pieces && tokens)
    && (mode == PerCall <==> !seconds && !pieces && !tokens)
  }

  /** What was used of the video, and at what stored price. */
  ghost predicate VideoFits(env: Env, o: Fields, mode: Mode, usage: real, price: real) {
    var ratio, own := First(env, o, ["global_model_ratio", "model_ratio"]), First(env, o, ["video_global_token_price"]);
    var multiple := Factored(env, o, ["global_video_completion_ratio", "video_completion_ratio"]);
    && (mode == PerSecond ==>
          && usage == Positive(env, o, ["video_seconds", "seconds", "video_duration"])
          && price == First(env, o, ["global_video_price_per_second", "video_price_per_second"]))
    && (mode == PerVideo ==>
          && usage == (if Positive(env, o, ["video_count"]) > 0.0 then Positive(env, o, ["video_count"]) else 1.0)
          && price == First(env, o, ["global_video_price_per_video", "video_price_per_video"]))
    && (mode == ByToken ==>
          && usage == Positive(env, o, ["video_output_tokens", "video_total_tokens"])
          && price == if own > 0.0 then own
                      else 2.0 * ratio * First(env, o, ["global_video_ratio", "video_ratio"]) * multiple)
    && (mode == PerCall ==> usage == 1.0 && price == First(env, o, ["global_model_price", "model_price"]))
  }

  /** Token prices are per million, all others per piece. */
  ghost function PerUnit(mode: Mode): real {
    if mode == ByToken then 1_000_000.0 else 1.0
  }

  /** The text input of a video billed by tokens, at the input price. */
  ghost predicate PromptFits(env: Env, o: Fields, mode: Mode, line: Line) {
    if mode == ByToken
    then
      var ratio := First(env, o, ["global_model_ratio", "model_ratio"]);
      && line.usage == Positive(env, o, ["video_input_text_tokens"]) && Costs(line, line.price)
      && IsPrice(env, o, "tier_official_input_unit_price", ratio, line.price)
    else line == Line(0.0, 0.0, 0.0)
  }

  lemma VideoModeIs(env: Env, o: Fields)
    ensures VideoModeFits(env, o, VideoMode(env, o))
  {
    hide Positive, Lower, Contains;
  }

  lemma VideoLineFits(env: Env, o: Fields, mode: Mode)
    requires mode in {PerSecond, PerVideo, ByToken, PerCall}
    ensures var line := VideoLine(env, o, mode);
            && VideoFits(env, o, mode, line.usage, line.price)
            && line.official * PerUnit(mode) == line.price * line.usage
  {
    hide Positive, First;
    var line := VideoLine(env, o, mode);
    Cancel(line.price * line.usage, PerUnit(mode));
  }

  lemma PromptIs(env: Env, o: Fields, mode: Mode)
    ensures PromptFits(env, o, mode, VideoPrompt(env, o, mode))
  {
    hide Positive, First, Truth, BasePrices, TokenPrices;
    BasePricesFit(env, o);
    assert IsPrice(env, o, "tier_official_input_unit_price", First(env, o, ["global_model_ratio", "model_ratio"]),
                   BasePrices(env, o).input) by {
      InputPriceFits(env, o);
    }
    PerMillionCosts(Positive(env, o, ["video_input_text_tokens"]), BasePrices(env, o).input);
  }

  lemma InputPriceFits(env: Env, o: Fields)
    ensures IsPrice(env, o, "tier_official_input_unit_price", First(env, o, ["global_model_ratio", "model_ratio"]),
                    BasePrices(env, o).input)
  {
    hide First, Positive, Truth, BasePrices;
    BasePricesFit(env, o);
  }

  lemma ExplainFits(line: Line, mode: Mode, official: real)
    requires line.official * PerUnit(mode) == line.price * line.usage && line.usage >= 0.0
    ensures var l := Explain(line, Factor(mode), official);
            && l.usage == line.usage && l.official * PerUnit(mode) == l.price * l.usage
            && (if line.usage > 0.0 then l.official == official else l == line)
  {
    if line.usage > 0.0 {
      Cancel(official * PerUnit(mode), line.usage);
    }
  }

  /** A video log: its mode, the video and its text input at their prices. When they cost nothing, the total is the one
      that the charge implies, and the video carries it all at the price that fits. */
  lemma VideoRow(env: Env, log: Log)
    requires SheetOf(env, log.other) == VideoSheet
    ensures var r := RowOf(env, log);
            var prompt, video, mode := r.lines.a, r.lines.b, r.mode;
            && VideoModeFits(env, log.other, mode) && PromptFits(env, log.other, mode, prompt)
            && r.lines.c == r.lines.d == r.lines.e == Line(0.0, 0.0, 0.0)
            && video.official * PerUnit(mode) == video.price * video.usage
            && exists price :: VideoFits(env, log.other, mode, video.usage, price)
                 && if prompt.official * PerUnit(mode) + price * video.usage > 0.0
                    then video.price == price && r.official == prompt.official + video.official
                    else Implied(env, log, r.official)
                         && if video.usage > 0.0 then video.official == r.official else video.price == price
  {
    hide First, Positive, Lower, SheetOf, SettlementUSD, RowOf, FallbackOfficial, Implied, VideoModeFits, PromptFits,
         VideoFits, VideoLine, VideoPrompt, VideoMode, Explain;
    var mode := VideoMode(env, log.other);
    var line := VideoLine(env, log.other, mode);
    LinesOfVideoRow(env, log);
    VideoModeIs(env, log.other);
    assert mode in {PerSecond, PerVideo, ByToken, PerCall} by {
      VideoModes(env, log.other);
    }
    VideoLineFits(env, log.other, mode);
    VideoUsage(env, log.other, mode);
    PromptIs(env, log.other, mode);
    FallbackIsImplied(env, log);
    ExplainFits(line, mode, FallbackOfficial(log.other, SettlementUSD(env, log)));
  }

  lemma VideoModes(env: Env, o: Fields)
    ensures VideoMode(env, o) in {PerSecond, PerVideo, ByToken, PerCall}
  {
    hide Positive, Lower, Contains;
  }

  lemma VideoUsage(env: Env, o: Fields, mode: Mode)
    ensures VideoLine(env, o, mode).usage >= 0.0
  {
    hide FieldNumber, First;
  }

  lemma LinesOfVideoRow(env: Env, log: Log)
    requires SheetOf(env, log.other) == VideoSheet
    ensures var r, mode := RowOf(env, log), VideoMode(env, log.other);
            var prompt, line := VideoPrompt(env, log.other, mode), VideoLine(env, log.other, mode);
            && r.mode == mode && r.lines.a == prompt && r.lines.c == r.lines.d == r.lines.e == Line(0.0, 0.0, 0.0)
            && if prompt.official + line.official > 0.0
               then r.lines.b == line && r.official == prompt.official + line.official
               else var total := FallbackOfficial(log.other, SettlementUSD(env, log));
                    r.lines.b == Explain(line, Factor(mode), total) && r.official == total
  {
    hide SheetOf, SettlementUSD, RoutedModel, ChannelSettlement, VideoLine, VideoPrompt, VideoMode, VideoSpec, Explain,
         FallbackOfficial;
  }

  // ---------- Images ----------

  /** Images are billed by pieces, by tokens or by calls, the first that applies; what was used, and at what stored
      price. */
  ghost predicate ImageFits(env: Env, o: Fields, mode: Mode, usage: real, price: real) {
    var count, tokens := Positive(env, o, ["image_count"]), Positive(env, o, ["image_output"]);
    var pieces := Lower(env, o, ["billing_mode"]) == "image_per_image" || count > 0.0;
    && (pieces ==>
          && mode == PerImage && usage == (if count > 0.0 then count else 1.0)
          && price == First(env, o, ["image_global_rule_usd", "image_channel_rule_usd", "image_usd_per_image"]))
    && (!pieces && tokens > 0.0 ==>
          && mode == ByToken && usage == tokens
          && price == 2.0 * First(env, o, ["global_model_ratio", "model_ratio"])
                      * Factored(env, o, ["global_image_ratio", "image_ratio"]))
    && (!pieces && tokens <= 0.0 ==>
          && mode == PerCall && usage == 1.0
          && price == First(env, o, ["global_model_price", "image_generation_call_price", "model_price"]))
  }

  lemma ImageLineFits(env: Env, o: Fields)
    ensures var mode := ImageMode(env, o);
            var line := ImageLine(env, o, mode);
            && ImageFits(env, o, mode, line.usage, line.price) && line.usage > 0.0
            && line.official * PerUnit(mode) == line.price * line.usage
  {
    hide FieldNumber, Lower, First;
    var line := ImageLine(env, o, ImageMode(env, o));
    Cancel(line.price * line.usage, PerUnit(ImageMode(env, o)));
  }

  /** An image log: its mode and its images at their price. When they cost nothing, the total is the one that the charge
      implies, at the price that fits. */
  lemma ImageRow(env: Env, log: Log)
    requires SheetOf(env, log.other) == ImageSheet
    ensures var r := RowOf(env, log);
            var image, mode := r.lines.a, r.mode;
            && r.lines.b == r.lines.c == r.lines.d == r.lines.e == Line(0.0, 0.0, 0.0)
            && image.official == r.official && image.official * PerUnit(mode) == image.price * image.usage
            && exists price :: ImageFits(env, log.other, mode, image.usage, price)
                 && if price * image.usage > 0.0 then image.price == price else Implied(env, log, r.official)
  {
    hide First, Positive, Lower, SheetOf, SettlementUSD, RowOf, FallbackOfficial, Implied, ImageFits, ImageLine,
         ImageMode, Explain;
    var mode := ImageMode(env, log.other);
    LinesOfImageRow(env, log);
    ImageLineFits(env, log.other);
    FallbackIsImplied(env, log);
    ExplainFits(ImageLine(env, log.other, mode), mode, FallbackOfficial(log.other, SettlementUSD(env, log)));
  }

  lemma LinesOfImageRow(env: Env, log: Log)
    requires SheetOf(env, log.other) == ImageSheet
    ensures var r, mode := RowOf(env, log), ImageMode(env, log.other);
            var line := ImageLine(env, log.other, mode);
            && r.mode == mode && r.lines.b == r.lines.c == r.lines.d == r.lines.e == Line(0.0, 0.0, 0.0)
            && if line.official > 0.0 then r.lines.a == line && r.official == line.official
               else var total := FallbackOfficial(log.other, SettlementUSD(env, log));
                    r.lines.a == Explain(line, Factor(mode), total) && r.official == total
  {
    hide SheetOf, SettlementUSD, RoutedModel, ChannelSettlement, ImageLine, ImageMode, ImageSpec, Explain,
         FallbackOfficial;
  }

  // ---------- Audio ----------

  /** Audio is billed by seconds, by calls or by tokens, the first that applies. */
  ghost predicate AudioModeFits(env: Env, o: Fields, mode: Mode) {
    var seconds := Truth(env, o, "asr") || Positive(env, o, ["audio_seconds"]) > 0.0;
    var call := First(env, o, ["global_model_price", "model_price"]) > 0.0;
    mode == if seconds then PerSecond else if call then PerCall else ByToken
  }

  /** Seconds or calls, and their stored price. */
  ghost predicate MediaFits(env: Env, o: Fields, mode: Mode, usage: real, price: real) {
    && (mode == PerSecond ==>
          && usage == Positive(env, o, ["audio_seconds", "seconds"])
          && price == First(env, o, ["global_asr_price", "global_model_price", "asr_unit_price", "model_price"]))
    && (mode == PerCall ==> usage == 1.0 && price == First(env, o, ["global_model_price", "model_price"]))
  }

  /** Text and audio tokens. The log's own counts stand in for text that is not stated, unless audio is. */
  ghost predicate AudioUsages(env: Env, log: Log, l: Lines) {
    var o := log.other;
    var textIn, textOut := Positive(env, o, ["text_input"]), Positive(env, o, ["text_output"]);
    && l.c.usage == Positive(env, o, ["audio_input", "audio_input_token_count"])
    && l.d.usage == Positive(env, o, ["audio_output"])
    && (textIn > 0.0 || l.c.usage > 0.0 ==> l.a.usage == textIn)
    && (textIn == 0.0 && l.c.usage == 0.0 ==>
          l.a.usage == if log.promptTokens > 0 then log.promptTokens as real else 0.0)
    && (textOut > 0.0 || l.d.usage > 0.0 ==> l.b.usage == textOut)
    && (textOut == 0.0 && l.d.usage == 0.0 ==>
          l.b.usage == if log.completionTokens > 0 then log.completionTokens as real else 0.0)
  }

  /** Text at the text prices; audio input at its own price or at a multiple of the text input, audio output at a
      multiple of that. */
  ghost predicate AudioPrices(env: Env, o: Fields, l: Lines) {
    var ratio, own := First(env, o, ["global_model_ratio", "model_ratio"]), Positive(env, o, ["audio_input_price"]);
    var audio := Factored(env, o, ["global_audio_ratio", "audio_ratio"]);
    var multiple := Factored(env, o, ["global_audio_completion_ratio", "audio_completion_ratio"]);
    && IsPrice(env, o, "tier_official_input_unit_price", ratio, l.a.price)
    && IsPrice(env, o, "tier_official_output_unit_price",
               ratio * Factored(env, o, ["global_completion_ratio", "completion_ratio"]), l.b.price)
    && l.c.price == (if own > 0.0 then own else l.a.price * audio)
    && l.d.price == l.a.price * audio * multiple
  }

  lemma AudioUsagesFit(env: Env, log: Log)
    ensures AudioUsages(env, log, AudioTokens(env, log))
  {
    hide FieldNumber, BasePrices, AudioInputPrice, AudioOutputPrice;
  }

  /** The four prices that the token lines of an audio log are made with. */
  lemma PricesOfAudio(env: Env, log: Log)
    ensures var l, p, o := AudioTokens(env, log), BasePrices(env, log.other), log.other;
            && l.a.price == p.input && l.b.price == p.output && l.c.price == AudioInputPrice(env, o)
            && l.d.price == AudioOutputPrice(env, o) && l.e == Line(0.0, 0.0, 0.0)
  {
    hide First, Positive, BasePrices, AudioInputPrice, AudioOutputPrice, AtLeastZero;
  }

  lemma AudioMultiples(env: Env, o: Fields)
    ensures var own, input := Positive(env, o, ["audio_input_price"]), BasePrices(env, o).input;
            var audio := Factored(env, o, ["global_audio_ratio", "audio_ratio"]);
            var multiple := Factored(env, o, ["global_audio_completion_ratio", "audio_completion_ratio"]);
            && AudioInputPrice(env, o) == (if own > 0.0 then own else input * audio)
            && AudioOutputPrice(env, o) == input * audio * multiple
  {
    hide First, Positive, BasePrices;
    assert AudioRatio(env, o) == Factored(env, o, ["global_audio_ratio", "audio_ratio"]);
  }

  lemma AudioPricesFit(env: Env, log: Log)
    ensures AudioPrices(env, log.other, AudioTokens(env, log)) && AudioTokens(env, log).e == Line(0.0, 0.0, 0.0)
  {
    hide First, Positive, Truth, BasePrices, IsPrice, AudioInputPrice, AudioOutputPrice, AudioTokens, Factored;
    PricesOfAudio(env, log);
    BasePricesFit(env, log.other);
    AudioMultiples(env, log.other);
    AudioPricesAre(env, log.other, AudioTokens(env, log), BasePrices(env, log.other));
  }

  lemma AudioPricesAre(env: Env, o: Fields, l: Lines, p: Prices)
    requires TokenPrices(env, o, p.input, p.output, p.cacheWrite, p.cacheRead)
    requires l.a.price == p.input && l.b.price == p.output
    requires var own := Positive(env, o, ["audio_input_price"]);
             var audio := Factored(env, o, ["global_audio_ratio", "audio_ratio"]);
             var multiple := Factored(env, o, ["global_audio_completion_ratio", "audio_completion_ratio"]);
             && l.c.price == (if own > 0.0 then own else p.input * audio) && l.d.price == p.input * audio * multiple
    ensures AudioPrices(env, o, l)
  {
    hide First, Positive, Truth, IsPrice, Factored;
  }

  lemma AudioCostsFit(env: Env, log: Log)
    ensures var l := AudioTokens(env, log);
            Costs(l.a, l.a.price) && Costs(l.b, l.b.price) && Costs(l.c, l.c.price) && Costs(l.d, l.d.price)
  {
    hide First, Positive, BasePrices, Costs, AudioInputPrice, AudioOutputPrice, AtLeastZero;
    var l := AudioTokens(env, log);
    PerMillionCosts(l.a.usage, l.a.price);
    PerMillionCosts(l.b.usage, l.b.price);
    PerMillionCosts(l.c.usage, l.c.price);
    PerMillionCosts(l.d.usage, l.d.price);
  }

  /** An audio log: its mode, and its seconds, its call or its tokens at their prices. When they cost nothing, the total
      is the one that the charge implies, and the seconds or the call carry it. */
  lemma AudioRow(env: Env, log: Log)
    requires SheetOf(env, log.other) == AudioSheet
    ensures var r := RowOf(env, log);
            var l, media := r.lines, r.lines.e;
            && AudioModeFits(env, log.other, r.mode)
            && (r.mode == ByToken ==>
                  && AudioUsages(env, log, l) && AudioPrices(env, log.other, l) && media == Line(0.0, 0.0, 0.0)
                  && Costs(l.a, l.a.price) && Costs(l.b, l.b.price) && Costs(l.c, l.c.price) && Costs(l.d, l.d.price)
                  && (if Millionths(l) > 0.0 then r.official * 1_000_000.0 == Millionths(l)
                      else Implied(env, log, r.official)))
            && (r.mode != ByToken ==>
                  && l.a == l.b == l.c == l.d == Line(0.0, 0.0, 0.0) && media.official == media.price * media.usage
                  && exists price :: MediaFits(env, log.other, r.mode, media.usage, price)
                       && if price * media.usage > 0.0 then media.price == price && r.official == media.official
                          else Implied(env, log, r.official)
                               && if media.usage > 0.0 then media.official == r.official else media.price == price)
  {
    hide First, Positive, Truth, SheetOf, SettlementUSD, RowOf, FallbackOfficial, Implied, AudioModeFits, AudioUsages,
         AudioPrices, MediaFits, AudioTokens, AudioMedia, AudioMode, Explain, Costs, Cost, Millionths;
    var mode, total := AudioMode(env, log.other), FallbackOfficial(log.other, SettlementUSD(env, log));
    LinesOfAudioRow(env, log);
    AudioModeIs(env, log.other);
    FallbackIsImplied(env, log);
    if mode == ByToken {
      AudioUsagesFit(env, log);
      AudioPricesFit(env, log);
      AudioCostsFit(env, log);
      SumOfCosts(AudioTokens(env, log));
      NothingToExplain(total);
    } else {
      MediaIs(env, log.other, mode);
      ExplainFits(AudioMedia(env, log.other, mode), PerCall, total);
    }
  }

  lemma AudioModeIs(env: Env, o: Fields)
    ensures AudioModeFits(env, o, AudioMode(env, o)) && AudioMode(env, o) in {PerSecond, PerCall, ByToken}
  {
    hide First, Positive, Truth;
  }

  lemma MediaIs(env: Env, o: Fields, mode: Mode)
    requires mode in {PerSecond, PerCall}
    ensures var media := AudioMedia(env, o, mode);
            MediaFits(env, o, mode, media.usage, media.price) && media.usage >= 0.0
            && media.official == media.price * media.usage
  {
    hide FieldNumber, First;
  }

  lemma NothingToExplain(official: real)
    ensures Explain(Line(0.0, 0.0, 0.0), 1.0, official) == Line(0.0, 0.0, 0.0)
  {
  }

  lemma LinesOfAudioRow(env: Env, log: Log)
    requires SheetOf(env, log.other) == AudioSheet
    ensures var r, mode := RowOf(env, log), AudioMode(env, log.other);
            var total := FallbackOfficial(log.other, SettlementUSD(env, log));
            && r.mode == mode
            && (mode == ByToken ==>
                  var lines := AudioTokens(env, log);
                  if Cost(lines) > 0.0 then r.lines == lines && r.official == Cost(lines)
                  else r.lines == lines.(e := Explain(lines.e, 1.0, total)) && r.official == total)
            && (mode != ByToken ==>
                  var media := AudioMedia(env, log.other, mode);
                  && r.lines.a == r.lines.b == r.lines.c == r.lines.d == Line(0.0, 0.0, 0.0)
                  && if media.official > 0.0 then r.lines.e == media && r.official == media.official
                     else r.lines.e == Explain(media, 1.0, total) && r.official == total)
  {
    hide SheetOf, SettlementUSD, RoutedModel, ChannelSettlement, AudioTokens, AudioMedia, AudioMode, Explain,
         FallbackOfficial;
  }

  // ---------- Sheet, period and model ----------

  /** Whatever marks a video makes the log one; otherwise an image, otherwise audio; text is what is left. */
  lemma SheetExactly(env: Env, log: Log)
    ensures var o, sheet := log.other, RowOf(env, log).sheet;
            var mode, path := Lower(env, o, ["billing_mode"]), Lower(env, o, ["request_path"]);
            var video :=
              || Contains(mode, "video") || Contains(path, "/video")
              || Positive(env, o, ["video_billed_quota", "video_seconds", "video_count", "video_output_tokens"]) > 0.0
              || FieldText(env.fmt, o, ["video_billing_lane", "video_resolution"]) != "";
            var image :=
              || mode == "image_per_image" || Contains(path, "/image") || Truth(env, o, "image")
              || Truth(env, o, "image_generation_call") || Positive(env, o, ["image_count", "image_output"]) > 0.0;
            var audio :=
              || Truth(env, o, "audio") || Truth(env, o, "ws") || Truth(env, o, "asr") || Contains(path, "/audio")
              || Positive(env, o, ["audio_seconds", "audio_input", "audio_output", "audio_input_token_count"]) > 0.0;
            && (sheet == VideoSheet <==> video)
            && (sheet == ImageSheet <==> !video && image)
            && (sheet == AudioSheet <==> !video && !image && audio)
            && (sheet == TextSheet <==> !video && !image && !audio)
  {
    hide Positive, Lower, FieldText, Truth, Contains, ComponentOf, SettlementUSD, RoutedModel, ChannelSettlement;
  }

  /** One text is part of another when it stands somewhere in it. */
  lemma {:induction false} ContainsExactly(s: string, part: string)
    ensures Contains(s, part) <==> exists i :: 0 <= i <= |s| && part <= s[i..]
  {
    if part <= s {
      assert s[0..] == s;
    } else if s != "" {
      ContainsExactly(s[1..], part);
      forall i | 0 <= i <= |s[1..]| ensures s[1..][i..] == s[i + 1..] {
      }
      if i :| 0 <= i <= |s| && part <= s[i..] {
        assert i > 0;
        assert s[1..][i - 1..] == s[i..];
      }
      if i :| 0 <= i <= |s[1..]| && part <= s[1..][i..] {
        assert part <= s[i + 1..];
      }
    }
  }

  /** A row counts one call, in the period of its log's time, under the model and its route: the log's own slug, or the
      default one of its channel. */
  lemma RowIsOneCall(env: Env, log: Log)
    ensures var r, name, slug := RowOf(env, log), TrimSpace(log.modelName), TrimSpace(log.routeSlug);
            && r.calls == 1 && r.start == env.startOf(log.createdAt)
            && (slug != "" ==> r.model == name + "/" + slug)
            && (slug == "" && log.channelID > 0 && env.defaultSlug(log.channelID) != "" ==>
                  r.model == name + "/" + env.defaultSlug(log.channelID))
            && (slug == "" && (log.channelID <= 0 || env.defaultSlug(log.channelID) == "") ==> r.model == name)
  {
    hide TrimSpace, SheetOf, ComponentOf, SettlementUSD, ChannelSettlement;
  }

  // ---------- Specifications ----------

  /** The trimmed texts that are not blank, each where it comes first. */
  ghost function Named(texts: seq<string>): seq<string> {
    if texts == [] then [] else
      var before, part := Named(texts[..|texts| - 1]), TrimSpace(texts[|texts| - 1]);
      if part == "" || part in before then before else before + [part]
  }

  lemma {:induction false} NamedExactly(texts: seq<string>)
    ensures forall i, j :: 0 <= i < j < |Named(texts)| ==> Named(texts)[i] != Named(texts)[j]
    ensures forall part :: part in Named(texts) <==>
                             part != "" && exists i :: 0 <= i < |texts| && part == TrimSpace(texts[i])
  {
    hide TrimSpace;
    if texts != [] {
      var k := |texts| - 1;
      NamedExactly(texts[..k]);
      assert forall i :: 0 <= i < k ==> texts[..k][i] == texts[i];
      forall part
        ensures part in Named(texts) <==> part in Named(texts[..k]) || (part != "" && part == TrimSpace(texts[k]))
      {
      }
    }
  }

  /** Parts with the separator between them. */
  ghost predicate IsJoined(parts: seq<string>, s: string) {
    if |parts| <= 1 then s == (if parts == [] then "" else parts[0])
    else exists front: string ::
           IsJoined(parts[..|parts| - 1], front) && s == front + " · " + parts[|parts| - 1]
  }

  lemma {:induction false} JoinPartsIs(parts: seq<string>)
    ensures IsJoined(parts, JoinParts(parts))
  {
    if |parts| > 1 {
      var init, last := parts[..|parts| - 1], parts[|parts| - 1];
      JoinPartsIs(init);
      JoinPartsLast(init, last);
      assert parts == init + [last];
    }
  }

  lemma {:induction false} JoinPartsLast(parts: seq<string>, last: string)
    requires parts != []
    ensures JoinParts(parts + [last]) == JoinParts(parts) + " · " + last
  {
    assert (parts + [last])[1..] == parts[1..] + [last];
    if |parts| > 1 {
      JoinPartsLast(parts[1..], last);
    }
  }

  /** An image names its tier, its resolution and its billing mode. */
  lemma ImageSpecExactly(env: Env, log: Log)
    requires SheetOf(env, log.other) == ImageSheet
    ensures var tier := FieldText(env.fmt, log.other, ["image_rule_tier"]);
            var resolution := FieldText(env.fmt, log.other, ["image_rule_resolution", "image_resolution"]);
            var mode := FieldText(env.fmt, log.other, ["image_billing_mode"]);
            IsJoined(Named([tier, resolution, mode]), RowOf(env, log).spec)
  {
    hide FieldText, TrimSpace, SheetOf, ImageLine, ImageMode, Official, SettlementUSD, RoutedModel, JoinParts, IsJoined;
    var tier := FieldText(env.fmt, log.other, ["image_rule_tier"]);
    var resolution := FieldText(env.fmt, log.other, ["image_rule_resolution", "image_resolution"]);
    var mode := FieldText(env.fmt, log.other, ["image_billing_mode"]);
    ThreeNamed(tier, resolution, mode);
    JoinPartsIs(AddPart(AddPart(AddPart([], tier), resolution), mode));
  }

  lemma NamedLast(texts: seq<string>, text: string)
    ensures Named(texts + [text]) == AddPart(Named(texts), text)
  {
    hide TrimSpace;
    assert (texts + [text])[..|texts|] == texts;
  }

  lemma ThreeNamed(a: string, b: string, c: string)
    ensures Named([a, b, c]) == AddPart(AddPart(AddPart([], a), b), c)
  {
    hide Named, AddPart;
    TwoNamed(a, b);
    NamedLast([a, b], c);
    assert [a, b] + [c] == [a, b, c];
  }

  /** A video names its lane and its resolution, or without both its size, and whether it has sound. */
  lemma VideoSpecExactly(env: Env, log: Log)
    requires SheetOf(env, log.other) == VideoSheet
    ensures var o := log.other;
            var lane, resolution :=
              FieldText(env.fmt, o, ["video_billing_lane"]), FieldText(env.fmt, o, ["video_resolution"]);
            var width, height := Positive(env, o, ["video_rule_width"]), Positive(env, o, ["video_rule_height"]);
            var size := if Named([lane, resolution]) == [] && width > 0.0 && height > 0.0
                        then env.showInt(width.Floor) + "x" + env.showInt(height.Floor) else "";
            var sound := if "video_has_audio" !in o || !o["video_has_audio"].Flag? then ""
                         else if o["video_has_audio"] == Flag(true) then "有音轨" else "无音轨";
            IsJoined(Named([lane, resolution, size, sound]), RowOf(env, log).spec)
  {
    hide FieldText, Positive, TrimSpace, SheetOf, VideoLine, VideoPrompt, VideoMode, Official, SettlementUSD,
         RoutedModel, JoinParts, IsJoined;
    var o := log.other;
    var lane, resolution := FieldText(env.fmt, o, ["video_billing_lane"]), FieldText(env.fmt, o, ["video_resolution"]);
    var width, height := Positive(env, o, ["video_rule_width"]), Positive(env, o, ["video_rule_height"]);
    TwoNamed(lane, resolution);
    var size := if Named([lane, resolution]) == [] && width > 0.0 && height > 0.0
                then env.showInt(width.Floor) + "x" + env.showInt(height.Floor) else "";
    var sound := if "video_has_audio" !in o || !o["video_has_audio"].Flag? then ""
                 else if o["video_has_audio"] == Flag(true) then "有音轨" else "无音轨";
    FourNamed(lane, resolution, size, sound);
    JoinPartsIs(Named([lane, resolution, size, sound]));
    BlankPart(AddPart(AddPart([], lane), resolution));
    BlankPart(AddPart(AddPart(AddPart([], lane), resolution), size));
  }

  lemma BlankPart(parts: seq<string>)
    ensures AddPart(parts, "") == parts
  {
  }

  lemma TwoNamed(a: string, b: string)
    ensures Named([a, b]) == AddPart(AddPart([], a), b)
  {
    hide AddPart;
    var none: seq<string> := [];
    NamedLast(none, a);
    NamedLast([a], b);
    assert none + [a] == [a] && [a] + [b] == [a, b];
  }

  lemma FourNamed(a: string, b: string, c: string, d: string)
    ensures Named([a, b, c, d]) == AddPart(AddPart(AddPart(AddPart([], a), b), c), d)
  {
    hide Named, AddPart;
    ThreeNamed(a, b, c);
    NamedLast([a, b, c], d);
    assert [a, b, c] + [d] == [a, b, c, d];
  }

  /** Text and audio name nothing. */
  lemma OtherSpecs(env: Env, log: Log)
    requires SheetOf(env, log.other) == TextSheet || SheetOf(env, log.other) == AudioSheet
    ensures RowOf(env, log).spec == ""
  {
    hide SheetOf, First, Cost, Official, SettlementUSD, RoutedModel, ChannelSettlement;
  }
}
