/** What one collapsed log contributes to the billing summary (controller/billing_summary_export.go). */
module BillingComponents {
  import opened Options
  import opened Text
  import opened BillingLog

  datatype Sheet = TextSheet | VideoSheet | ImageSheet | AudioSheet

  datatype Mode = NoMode | PerSecond | PerVideo | PerImage | ByToken | PerCall

  /** One priced quantity of a row. */
  datatype Line = Line(usage: real, price: real, official: real)

  const NO_LINE := Line(0.0, 0.0, 0.0)

  /** Text: input, output, cache write, cache read, call. Video: text input, video. Image: the images.
      Audio: text input, text output, audio input, audio output, media. */
  datatype Lines = Lines(a: Line, b: Line, c: Line, d: Line, e: Line)

  datatype Row = Row(
    sheet: Sheet, start: int, model: string, mode: Mode, spec: string, calls: int, lines: Lines, official: real,
    settlement: real)

  /** The settings and the calendar: the start of a timestamp's period, and the text of that start that keys the
      period. */
  datatype Env = Env(
    fmt: Format, english: bool, quotaPerUnit: real, startOf: int -> int, keyOf: int -> string,
    defaultSlug: int -> string, showInt: int -> string)

  const MILLION := 1_000_000.0

  // ---------- Fields ----------

  function Positive(env: Env, other: Fields, keys: seq<string>): real {
    var v := FieldNumber(env.fmt, other, keys);
    if v.Some? && v.value > 0.0 then v.value else 0.0
  }

  function First(env: Env, other: Fields, keys: seq<string>): real {
    FieldNumber(env.fmt, other, keys).GetOr(0.0)
  }

  function OneIfNone(ratio: real): real {
    if ratio <= 0.0 then 1.0 else ratio
  }

  predicate Truth(env: Env, other: Fields, key: string) {
    key in other &&
    match other[key]
    case Flag(b) => b
    case Words(s) => env.fmt.lower(TrimSpace(s)) == "true" || TrimSpace(s) == "1"
    case Number(r) => r != 0.0
    case _ => false
  }

  function Lower(env: Env, other: Fields, keys: seq<string>): string {
    env.fmt.lower(FieldText(env.fmt, other, keys))
  }

  predicate Contains(s: string, part: string) {
    part <= s || (s != "" && Contains(s[1..], part))
  }

  // ---------- Quota ----------

  predicate SettledPhase(phase: string) {
    phase == PHASE_DELTA_CHARGE || phase == PHASE_DELTA_REFUND || phase == PHASE_SETTLEMENT_MERGED
      || phase == PHASE_SETTLEMENT_MARKER
  }

  /** resolveUsageLogExportQuota in controller/log_export.go. */
  function ExportQuota(env: Env, log: Log): int {
    var phase := PhaseOf(env.fmt, log);
    if phase == PHASE_DELTA_CHARGE || phase == PHASE_DELTA_REFUND then log.quota
    else
      var actual := FieldNumber(env.fmt, log.other, ["video_final_quota", "actual_quota"]);
      if actual.Some? && actual.value > 0.0 then actual.value.Floor
      else
        var billed := FieldNumber(env.fmt, log.other, ["video_billed_quota"]);
        if billed.Some? && billed.value > 0.0 then billed.value.Floor else log.quota
  }

  function FinalQuota(env: Env, log: Log): int {
    var actual := FieldNumber(env.fmt, log.other, ["video_final_quota", "actual_quota"]);
    if SettledPhase(PhaseOf(env.fmt, log)) && actual.Some? && actual.value >= 0.0 then (actual.value + 0.5).Floor
    else ExportQuota(env, log)
  }

  function QuotaPerUnit(env: Env, other: Fields): (r: real)
    ensures r > 0.0
  {
    var own := FieldNumber(env.fmt, other, ["video_quota_per_unit"]);
    if own.Some? && own.value > 0.0 then own.value else if env.quotaPerUnit > 0.0 then env.quotaPerUnit else 1.0
  }

  function SettlementUSD(env: Env, log: Log): (r: real)
    ensures r >= 0.0
    ensures r > 0.0 <==> FinalQuota(env, log) > 0
  {
    var quota := FinalQuota(env, log);
    if quota <= 0 then 0.0 else quota as real / QuotaPerUnit(env, log.other)
  }

  // ---------- Discounts ----------

  function Clamp(percent: real): real {
    if percent < 0.0 then 0.0 else if percent > 1000.0 then 1000.0 else percent
  }

  function OnlyNumber(other: Fields, key: string): Option<real> {
    if key in other && other[key].Number? then Some(other[key].r) else None
  }

  /** The operating discount of ParseSettlementDiscountSnapshot. */
  function OperatingDiscount(other: Fields): real {
    var stored := OnlyNumber(other, "channel_price_discount_percent");
    if stored.Some? then stored.value
    else
      var price := Clamp(OnlyNumber(other, "price_discount_percent").GetOr(100.0));
      Clamp(price + Clamp(OnlyNumber(other, "operating_cost_percent").GetOr(0.0)))
  }

  function FallbackOfficial(other: Fields, usd: real): real {
    var discount := OperatingDiscount(other);
    if usd <= 0.0 then 0.0 else usd * 100.0 / (if discount <= 0.0 then 100.0 else discount)
  }

  function ChannelSettlement(other: Fields, official: real, usd: real): real {
    var discount := OperatingDiscount(other);
    if official <= 0.0 then usd else official * (if discount < 0.0 then 0.0 else discount) / 100.0
  }

  /** The official total: what the quantities cost, or else what the settlement implies. */
  function Official(other: Fields, measured: real, usd: real): real {
    if measured <= 0.0 then FallbackOfficial(other, usd) else measured
  }

  /** A log without priced quantities reports what it was charged exactly when its discount is positive
      or it was charged nothing: under a discount of nothing the charge disappears from the summary. */
  lemma FallbackKeepsCharge(other: Fields, measured: real, usd: real)
    requires measured <= 0.0 <= usd
    ensures ChannelSettlement(other, Official(other, measured, usd), usd) == usd <==>
            usd == 0.0 || OperatingDiscount(other) > 0.0
  {
    var discount := OperatingDiscount(other);
    if usd > 0.0 && discount > 0.0 {
      var official := usd * 100.0 / discount;
      assert official * discount == usd * 100.0;
      assert official > 0.0;
    }
  }

  // ---------- Prices and specifications ----------

  datatype Prices = Prices(input: real, output: real, cacheWrite: real, cacheRead: real)

  function Override(env: Env, other: Fields, key: string, price: real): real {
    if Truth(env, other, "request_tier_pricing") && Positive(env, other, [key]) > 0.0 then Positive(env, other, [key])
    else price
  }

  function BasePrices(env: Env, other: Fields): Prices {
    var ratio := First(env, other, ["global_model_ratio", "model_ratio"]);
    var completion := OneIfNone(First(env, other, ["global_completion_ratio", "completion_ratio"]));
    var cache := OneIfNone(First(env, other, ["global_cache_ratio", "cache_ratio"]));
    var create := OneIfNone(First(env, other, ["global_create_cache_ratio", "cache_creation_ratio"]));
    Prices(
      Override(env, other, "tier_official_input_unit_price", ratio * 2.0),
      Override(env, other, "tier_official_output_unit_price", ratio * completion * 2.0),
      Override(env, other, "tier_official_cache_write_unit_price", ratio * create * 2.0),
      Override(env, other, "tier_official_cache_read_unit_price", ratio * cache * 2.0))
  }

  function AddPart(parts: seq<string>, value: string): seq<string> {
    var v := TrimSpace(value);
    if v == "" || v in parts then parts else parts + [v]
  }

  function JoinParts(parts: seq<string>): string {
    if parts == [] then "" else if |parts| == 1 then parts[0] else parts[0] + " · " + JoinParts(parts[1..])
  }

  function ImageSpec(env: Env, other: Fields): string {
    JoinParts(
      AddPart(AddPart(AddPart([], FieldText(env.fmt, other, ["image_rule_tier"])),
        FieldText(env.fmt, other, ["image_rule_resolution", "image_resolution"])),
        FieldText(env.fmt, other, ["image_billing_mode"])))
  }

  function VideoSpec(env: Env, other: Fields): string {
    var lane := FieldText(env.fmt, other, ["video_billing_lane"]);
    var named := AddPart(AddPart([], lane), FieldText(env.fmt, other, ["video_resolution"]));
    var width, height := Positive(env, other, ["video_rule_width"]), Positive(env, other, ["video_rule_height"]);
    var sized :=
      if named == [] && width > 0.0 && height > 0.0
      then AddPart([], env.showInt(width.Floor) + "x" + env.showInt(height.Floor))
      else named;
    JoinParts(
      if "video_has_audio" in other && other["video_has_audio"].Flag?
      then AddPart(sized, if other["video_has_audio"].b then "有音轨" else "无音轨")
      else sized)
  }

  // ---------- The sheet of a log ----------

  predicate IsVideo(env: Env, other: Fields) {
    || Contains(Lower(env, other, ["billing_mode"]), "video")
    || Contains(Lower(env, other, ["request_path"]), "/video")
    || Positive(env, other, ["video_billed_quota", "video_seconds", "video_count", "video_output_tokens"]) > 0.0
    || FieldText(env.fmt, other, ["video_billing_lane", "video_resolution"]) != ""
  }

  predicate IsImage(env: Env, other: Fields) {
    || Lower(env, other, ["billing_mode"]) == "image_per_image"
    || Contains(Lower(env, other, ["request_path"]), "/image")
    || Truth(env, other, "image")
    || Truth(env, other, "image_generation_call")
    || Positive(env, other, ["image_count", "image_output"]) > 0.0
  }

  predicate IsAudio(env: Env, other: Fields) {
    || Truth(env, other, "audio")
    || Truth(env, other, "ws")
    || Truth(env, other, "asr")
    || Contains(Lower(env, other, ["request_path"]), "/audio")
    || Positive(env, other, ["audio_seconds", "audio_input", "audio_output", "audio_input_token_count"]) > 0.0
  }

  function SheetOf(env: Env, other: Fields): Sheet {
    if IsVideo(env, other) then VideoSheet
    else if IsImage(env, other) then ImageSheet
    else if IsAudio(env, other) then AudioSheet
    else TextSheet
  }

  // ---------- The four kinds of component ----------

  datatype Component = Component(mode: Mode, spec: string, lines: Lines, official: real)

  function PerMillion(usage: real, price: real): (r: Line)
    ensures r.usage == usage
  {
    Line(usage, price, usage * price / MILLION)
  }

  function CacheRead(env: Env, other: Fields): real {
    Positive(env, other, ["cache_tokens", "cache_read_tokens", "cached_tokens", "prompt_cache_hit_tokens"])
  }

  function CacheWrite(env: Env, other: Fields): real {
    var write := Positive(env, other, ["cache_write_tokens"]);
    var total := Positive(env, other, ["cache_creation_tokens"]);
    var split := Positive(env, other, ["cache_creation_tokens_5m"])
      + Positive(env, other, ["cache_creation_tokens_1h"]);
    if write > 0.0 then write else if split > total then split else total
  }

  function InputTokens(env: Env, log: Log): real {
    var billed := Positive(env, log.other, ["tier_billed_input_tokens", "text_input"]);
    var input := log.promptTokens as real;
    var uncached := input - (CacheRead(env, log.other) + CacheWrite(env, log.other));
    if billed > 0.0 then billed
    else if Lower(env, log.other, ["usage_semantic"]) == "anthropic" then input
    else if uncached < 0.0 then 0.0 else uncached
  }

  function OutputTokens(env: Env, log: Log): real {
    var output := Positive(env, log.other, ["text_output"]);
    if output > 0.0 then output else log.completionTokens as real
  }

  function Usage(lines: Lines): real {
    lines.a.usage + lines.b.usage + lines.c.usage + lines.d.usage
  }

  function Cost(lines: Lines): real {
    lines.a.official + lines.b.official + lines.c.official + lines.d.official + lines.e.official
  }

  function Share(line: Line, official: real, usage: real): Line
    requires usage > 0.0
  {
    line.(official := official * line.usage / usage)
  }

  /** An official total that no quantity explains is spread over the tokens. */
  function Spread(lines: Lines, official: real): Lines {
    var usage := Usage(lines);
    if usage > 0.0 then
      Lines(Share(lines.a, official, usage), Share(lines.b, official, usage), Share(lines.c, official, usage),
            Share(lines.d, official, usage), lines.e)
    else lines
  }

  function TokenLines(env: Env, log: Log): Lines {
    var prices := BasePrices(env, log.other);
    Lines(
      PerMillion(InputTokens(env, log), prices.input), PerMillion(OutputTokens(env, log), prices.output),
      PerMillion(CacheWrite(env, log.other), prices.cacheWrite),
        PerMillion(CacheRead(env, log.other), prices.cacheRead),
      NO_LINE)
  }

  function CallLines(price: real): Lines {
    Lines(NO_LINE, NO_LINE, NO_LINE, NO_LINE, Line(1.0, price, price))
  }

  function TextComponent(env: Env, log: Log, usd: real): Component {
    var price := First(env, log.other, ["global_model_price", "model_price"]);
    if price > 0.0 then Component(NoMode, "", CallLines(price), price)
    else
      var lines := TokenLines(env, log);
      var official := Official(log.other, Cost(lines), usd);
      Component(NoMode, "", if Cost(lines) <= 0.0 then Spread(lines, official) else lines, official)
  }

  function Factor(mode: Mode): real {
    if mode == ByToken then MILLION else 1.0
  }

  /** The price and the cost of a quantity that has to explain the whole official total. */
  function Explain(line: Line, factor: real, official: real): Line {
    if line.usage > 0.0 then Line(line.usage, official * factor / line.usage, official) else line
  }

  function VideoMode(env: Env, other: Fields): Mode {
    var mode := Lower(env, other, ["billing_mode"]);
    var lane := Lower(env, other, ["video_billing_lane", "video_rule_unit"]);
    if mode == "video_per_second" || Contains(lane, "per_second")
       || Positive(env, other, ["global_video_price_per_second", "video_price_per_second", "seconds"]) > 0.0
    then PerSecond
    else if mode == "video_per_video" || Contains(lane, "per_video") || Contains(lane, "per_item")
            || Positive(env, other, ["global_video_price_per_video", "video_price_per_video", "video_count"]) > 0.0
    then PerVideo
    else if mode == "video_token" || mode == "video_token_output" || Contains(lane, "per_token")
            || Positive(env, other, ["video_output_tokens", "video_total_tokens"]) > 0.0 then ByToken
    else PerCall
  }

  function VideoTokenPrice(env: Env, other: Fields): real {
    var price := First(env, other, ["video_global_token_price"]);
    if price > 0.0 then price
    else First(env, other, ["global_model_ratio", "model_ratio"])
         * First(env, other, ["global_video_ratio", "video_ratio"])
         * OneIfNone(First(env, other, ["global_video_completion_ratio", "video_completion_ratio"])) * 2.0
  }

  /** The quantity and the price of the video itself. */
  function VideoLine(env: Env, other: Fields, mode: Mode): Line {
    var usage := match mode
      case PerSecond => Positive(env, other, ["video_seconds", "seconds", "video_duration"])
      case PerVideo => OneIfNone(Positive(env, other, ["video_count"]))
      case ByToken => Positive(env, other, ["video_output_tokens", "video_total_tokens"])
      case _ => 1.0;
    var price := match mode
      case PerSecond => First(env, other, ["global_video_price_per_second", "video_price_per_second"])
      case PerVideo => First(env, other, ["global_video_price_per_video", "video_price_per_video"])
      case ByToken => VideoTokenPrice(env, other)
      case _ => First(env, other, ["global_model_price", "model_price"]);
    Line(usage, price, price * usage / Factor(mode))
  }

  /** The text input of a video billed by tokens. */
  function VideoPrompt(env: Env, other: Fields, mode: Mode): Line {
    if mode != ByToken then NO_LINE
    else PerMillion(Positive(env, other, ["video_input_text_tokens"]), BasePrices(env, other).input)
  }

  function VideoComponent(env: Env, other: Fields, usd: real): Component {
    var mode := VideoMode(env, other);
    var prompt, video := VideoPrompt(env, other, mode), VideoLine(env, other, mode);
    var measured := prompt.official + video.official;
    var official := Official(other, measured, usd);
    var explained := if measured <= 0.0 then Explain(video, Factor(mode), official) else video;
    Component(mode, VideoSpec(env, other), Lines(prompt, explained, NO_LINE, NO_LINE, NO_LINE), official)
  }

  function ImageMode(env: Env, other: Fields): Mode {
    if Lower(env, other, ["billing_mode"]) == "image_per_image" || Positive(env, other, ["image_count"]) > 0.0
    then PerImage
    else if Positive(env, other, ["image_output"]) > 0.0 then ByToken
    else PerCall
  }

  function ImageLine(env: Env, other: Fields, mode: Mode): Line {
    var usage := match mode
      case PerImage => OneIfNone(Positive(env, other, ["image_count"]))
      case ByToken => Positive(env, other, ["image_output"])
      case _ => 1.0;
    var price := match mode
      case PerImage => First(env, other, ["image_global_rule_usd", "image_channel_rule_usd", "image_usd_per_image"])
      case ByToken =>
        First(env, other, ["global_model_ratio", "model_ratio"])
        * OneIfNone(First(env, other, ["global_image_ratio", "image_ratio"])) * 2.0
      case _ => First(env, other, ["global_model_price", "image_generation_call_price", "model_price"]);
    Line(usage, price, price * usage / Factor(mode))
  }

  function ImageComponent(env: Env, other: Fields, usd: real): Component {
    var mode := ImageMode(env, other);
    var line := ImageLine(env, other, mode);
    var official := Official(other, line.official, usd);
    var explained := if line.official <= 0.0 then Explain(line, Factor(mode), official) else line;
    Component(mode, ImageSpec(env, other), Lines(explained, NO_LINE, NO_LINE, NO_LINE, NO_LINE), official)
  }

  function AtLeastZero(x: real): real {
    if x < 0.0 then 0.0 else x
  }

  function AudioMode(env: Env, other: Fields): Mode {
    if Truth(env, other, "asr") || Positive(env, other, ["audio_seconds"]) > 0.0 then PerSecond
    else if First(env, other, ["global_model_price", "model_price"]) > 0.0 then PerCall
    else ByToken
  }

  function AudioRatio(env: Env, other: Fields): real {
    OneIfNone(First(env, other, ["global_audio_ratio", "audio_ratio"]))
  }

  function AudioInputPrice(env: Env, other: Fields): real {
    var separate := Positive(env, other, ["audio_input_price"]);
    if separate > 0.0 then separate else BasePrices(env, other).input * AudioRatio(env, other)
  }

  function AudioOutputPrice(env: Env, other: Fields): real {
    var completion := OneIfNone(First(env, other, ["global_audio_completion_ratio", "audio_completion_ratio"]));
    BasePrices(env, other).input * AudioRatio(env, other) * completion
  }

  function AudioTokens(env: Env, log: Log): Lines {
    var other := log.other;
    var prices := BasePrices(env, other);
    var audioIn := Positive(env, other, ["audio_input", "audio_input_token_count"]);
    var audioOut := Positive(env, other, ["audio_output"]);
    var textIn := Positive(env, other, ["text_input"]);
    var textOut := Positive(env, other, ["text_output"]);
    Lines(
      PerMillion(
        if textIn <= 0.0 && audioIn <= 0.0 then AtLeastZero(log.promptTokens as real - audioIn) else textIn,
        prices.input),
      PerMillion(
        if textOut <= 0.0 && audioOut <= 0.0 then AtLeastZero(log.completionTokens as real - audioOut) else textOut,
        prices.output),
      PerMillion(audioIn, AudioInputPrice(env, other)),
      PerMillion(audioOut, AudioOutputPrice(env, other)),
      NO_LINE)
  }

  function AudioMedia(env: Env, other: Fields, mode: Mode): Line {
    var usage := if mode == PerSecond then Positive(env, other, ["audio_seconds", "seconds"]) else 1.0;
    var price :=
      if mode == PerSecond
      then First(env, other, ["global_asr_price", "global_model_price", "asr_unit_price", "model_price"])
      else First(env, other, ["global_model_price", "model_price"]);
    Line(usage, price, price * usage)
  }

  function AudioLines(env: Env, log: Log): Lines {
    var mode := AudioMode(env, log.other);
    if mode == ByToken then AudioTokens(env, log)
    else Lines(NO_LINE, NO_LINE, NO_LINE, NO_LINE, AudioMedia(env, log.other, mode))
  }

  function AudioComponent(env: Env, log: Log, usd: real): Component {
    var lines := AudioLines(env, log);
    var official := Official(log.other, Cost(lines), usd);
    var explained := if Cost(lines) <= 0.0 then lines.(e := Explain(lines.e, 1.0, official)) else lines;
    Component(AudioMode(env, log.other), "", explained, official)
  }

  function ComponentOf(env: Env, log: Log, usd: real): Component {
    match SheetOf(env, log.other)
    case VideoSheet => VideoComponent(env, log.other, usd)
    case ImageSheet => ImageComponent(env, log.other, usd)
    case AudioSheet => AudioComponent(env, log, usd)
    case TextSheet => TextComponent(env, log, usd)
  }

  /** The priced quantities of a log before any total is inferred. */
  function Quantities(env: Env, log: Log): Lines {
    match SheetOf(env, log.other)
    case VideoSheet =>
      var mode := VideoMode(env, log.other);
      Lines(VideoPrompt(env, log.other, mode), VideoLine(env, log.other, mode), NO_LINE, NO_LINE, NO_LINE)
    case ImageSheet =>
      Lines(ImageLine(env, log.other, ImageMode(env, log.other)), NO_LINE, NO_LINE, NO_LINE, NO_LINE)
    case AudioSheet => AudioLines(env, log)
    case TextSheet =>
      var price := First(env, log.other, ["global_model_price", "model_price"]);
      if price > 0.0 then CallLines(price) else TokenLines(env, log)
  }

  // ---------- The row of a log ----------

  /** Logs that were charged nothing and used no tokens are left out. */
  predicate Billable(env: Env, log: Log) {
    SettlementUSD(env, log) > 0.0 || log.promptTokens > 0 || log.completionTokens > 0
  }

  function RoutedModel(env: Env, log: Log): string {
    var name, slug := TrimSpace(log.modelName), TrimSpace(log.routeSlug);
    var route := if slug == "" && log.channelID > 0 then env.defaultSlug(log.channelID) else slug;
    if route == "" then name else name + "/" + route
  }

  function RowOf(env: Env, log: Log): Row {
    var usd := SettlementUSD(env, log);
    var c := ComponentOf(env, log, usd);
    Row(
      SheetOf(env, log.other), env.startOf(log.createdAt), RoutedModel(env, log), c.mode, c.spec, 1, c.lines,
      c.official, ChannelSettlement(log.other, c.official, usd))
  }

  predicate PossibleMode(sheet: Sheet, mode: Mode) {
    match sheet
    case TextSheet => mode == NoMode
    case VideoSheet => mode == PerSecond || mode == PerVideo || mode == ByToken || mode == PerCall
    case ImageSheet => mode == PerImage || mode == ByToken || mode == PerCall
    case AudioSheet => mode == PerSecond || mode == ByToken || mode == PerCall
  }

  /** Only the modes of its sheet occur in a row. */
  lemma ModeFitsSheet(env: Env, log: Log)
    ensures PossibleMode(RowOf(env, log).sheet, RowOf(env, log).mode)
  {
    hide FieldText, Lower, Positive, First, Truth, SettlementUSD, RoutedModel, VideoLine, VideoSpec, ImageLine,
         ImageSpec, AudioTokens, AudioMedia, BasePrices, Spread, Explain, Cost, Official, ChannelSettlement,
         IsVideo, IsImage, IsAudio;
  }

  /** Unless the log states its billed input, cached tokens are taken out of the input, so that every prompt token is
      priced once: together they are the prompt, or the cached tokens where these exceed it. */
  lemma PromptTokensCountedOnce(env: Env, log: Log)
    requires Positive(env, log.other, ["tier_billed_input_tokens", "text_input"]) == 0.0
    requires Lower(env, log.other, ["usage_semantic"]) != "anthropic"
    ensures var cached := CacheRead(env, log.other) + CacheWrite(env, log.other);
            var prompt := log.promptTokens as real;
            InputTokens(env, log) + cached == if prompt < cached then cached else prompt
  {
    hide Positive, Lower, CacheRead, CacheWrite;
  }

  /** Nothing negative was stored. */
  predicate NoNegatives(env: Env, log: Log) {
    && log.promptTokens >= 0 && log.completionTokens >= 0
    && forall key <- log.other :: AsNumber(env.fmt, log.other[key]).GetOr(0.0) >= 0.0
  }

  lemma {:induction false} FieldNotNegative(env: Env, log: Log, keys: seq<string>)
    requires NoNegatives(env, log)
    ensures First(env, log.other, keys) >= 0.0
  {
    hide AsNumber;
    if keys != [] {
      FieldNotNegative(env, log, keys[1..]);
    }
  }

  lemma ProductNotNegative(x: real, y: real)
    requires x >= 0.0 && y >= 0.0
    ensures x * y >= 0.0
  {
  }

  lemma PricesNotNegative(env: Env, log: Log)
    requires NoNegatives(env, log)
    ensures var p := BasePrices(env, log.other);
            p.input >= 0.0 && p.output >= 0.0 && p.cacheWrite >= 0.0 && p.cacheRead >= 0.0
  {
    hide FieldNumber, NoNegatives, Truth, First;
    var ratio := First(env, log.other, ["global_model_ratio", "model_ratio"]);
    FieldNotNegative(env, log, ["global_model_ratio", "model_ratio"]);
    ProductNotNegative(ratio, OneIfNone(First(env, log.other, ["global_completion_ratio", "completion_ratio"])));
    ProductNotNegative(ratio, OneIfNone(First(env, log.other, ["global_cache_ratio", "cache_ratio"])));
    ProductNotNegative(ratio, OneIfNone(First(env, log.other, ["global_create_cache_ratio", "cache_creation_ratio"])));
  }

  lemma PerMillionNotNegative(usage: real, price: real)
    requires usage >= 0.0 && price >= 0.0
    ensures PerMillion(usage, price).official >= 0.0
  {
    ProductNotNegative(usage, price);
  }

  lemma Cancel(x: real, u: real)
    requires u > 0.0
    ensures x * u / u == x && x / u * u == x
  {
  }

  lemma ShareOf(x: real, a: real, u: real)
    requires u > 0.0
    ensures x * a / u == x / u * a
  {
    var q := x / u;
    Cancel(x, u);
    assert x * a == q * a * u by {
      assert q * u == x;
    }
    Cancel(q * a, u);
  }

  lemma SpreadAddsUp(lines: Lines, official: real)
    requires Usage(lines) > 0.0 && lines.e.official == 0.0
    ensures Cost(Spread(lines, official)) == official
  {
    var u := Usage(lines);
    var q := official / u;
    ShareOf(official, lines.a.usage, u);
    ShareOf(official, lines.b.usage, u);
    ShareOf(official, lines.c.usage, u);
    ShareOf(official, lines.d.usage, u);
    SharesAdd(q, lines.a.usage, lines.b.usage, lines.c.usage, lines.d.usage);
    Cancel(official, u);
  }

  lemma SharesAdd(q: real, a: real, b: real, c: real, d: real)
    ensures q * a + q * b + q * c + q * d == q * (a + b + c + d)
  {
  }

  /** The row has a quantity to attach an inferred total to. */
  predicate Carries(sheet: Sheet, lines: Lines) {
    match sheet
    case TextSheet => Usage(lines) > 0.0
    case VideoSheet => lines.b.usage > 0.0
    case ImageSheet => true
    case AudioSheet => lines.e.usage > 0.0
  }

  /** The costs of these quantities add up to the total after inferring: there is a cost, or a quantity carries the
      whole total, or there is nothing to infer. The inferred total of a video goes to the video alone. */
  predicate Explained(sheet: Sheet, lines: Lines, usd: real) {
    || Cost(lines) > 0.0
    || if Carries(sheet, lines) then sheet == VideoSheet ==> lines.a.official == 0.0 else Cost(lines) == 0.0 == usd
  }

  lemma InferredIsPositive(other: Fields, usd: real)
    requires usd >= 0.0
    ensures if usd == 0.0 then FallbackOfficial(other, usd) == 0.0 else FallbackOfficial(other, usd) > 0.0
  {
    hide OperatingDiscount;
  }

  lemma TextExplains(env: Env, log: Log, usd: real)
    requires usd >= 0.0 && SheetOf(env, log.other) == TextSheet
    ensures var c := TextComponent(env, log, usd);
            Cost(c.lines) == c.official <==> Explained(TextSheet, Quantities(env, log), usd)
    ensures TextComponent(env, log, usd).official == Official(log.other, Cost(Quantities(env, log)), usd)
  {
    hide SheetOf, First, PerMillion, BasePrices, InputTokens, OutputTokens, CacheRead, CacheWrite, FallbackOfficial,
         Share;
    var lines := Quantities(env, log);
    InferredIsPositive(log.other, usd);
    if Cost(lines) <= 0.0 && Usage(lines) > 0.0 {
      SpreadAddsUp(lines, Official(log.other, Cost(lines), usd));
    }
  }

  lemma VideoExplains(env: Env, log: Log, usd: real)
    requires usd >= 0.0 && SheetOf(env, log.other) == VideoSheet
    ensures var c := VideoComponent(env, log.other, usd);
            Cost(c.lines) == c.official <==> Explained(VideoSheet, Quantities(env, log), usd)
    ensures VideoComponent(env, log.other, usd).official == Official(log.other, Cost(Quantities(env, log)), usd)
  {
    hide SheetOf, VideoMode, VideoPrompt, VideoLine, VideoSpec, FallbackOfficial;
    InferredIsPositive(log.other, usd);
  }

  lemma ImageUsage(env: Env, other: Fields)
    ensures ImageLine(env, other, ImageMode(env, other)).usage > 0.0
  {
    hide FieldNumber, FieldText, First, Lower;
  }

  lemma ImageExplains(env: Env, log: Log, usd: real)
    requires usd >= 0.0 && SheetOf(env, log.other) == ImageSheet
    ensures var c := ImageComponent(env, log.other, usd);
            Cost(c.lines) == c.official <==> Explained(ImageSheet, Quantities(env, log), usd)
    ensures ImageComponent(env, log.other, usd).official == Official(log.other, Cost(Quantities(env, log)), usd)
  {
    hide SheetOf, FallbackOfficial, ImageSpec, ImageLine, ImageMode;
    ImageUsage(env, log.other);
  }

  lemma AudioExplains(env: Env, log: Log, usd: real)
    requires usd >= 0.0 && SheetOf(env, log.other) == AudioSheet
    ensures var c := AudioComponent(env, log, usd);
            Cost(c.lines) == c.official <==> Explained(AudioSheet, Quantities(env, log), usd)
    ensures AudioComponent(env, log, usd).official == Official(log.other, Cost(Quantities(env, log)), usd)
  {
    hide SheetOf, FallbackOfficial, AudioTokens, AudioMedia, AudioMode;
    InferredIsPositive(log.other, usd);
    assert AudioMode(env, log.other) == ByToken ==> AudioTokens(env, log).e == NO_LINE by {
      MediaOfTokens(env, log);
    }
  }

  lemma MediaOfTokens(env: Env, log: Log)
    ensures AudioTokens(env, log).e == NO_LINE
  {
  }

  lemma ComponentExplains(env: Env, log: Log, usd: real)
    requires usd >= 0.0
    ensures var c := ComponentOf(env, log, usd);
            Cost(c.lines) == c.official <==> Explained(SheetOf(env, log.other), Quantities(env, log), usd)
    ensures ComponentOf(env, log, usd).official == Official(log.other, Cost(Quantities(env, log)), usd)
  {
    hide SheetOf, Quantities, TextComponent, VideoComponent, ImageComponent, AudioComponent, Explained, Official, Cost;
    match SheetOf(env, log.other)
    case TextSheet => TextExplains(env, log, usd);
    case VideoSheet => VideoExplains(env, log, usd);
    case ImageSheet => ImageExplains(env, log, usd);
    case AudioSheet => AudioExplains(env, log, usd);
  }

  /** For every log, the costs of its row's quantities add up to the row's official total exactly when the total did not
      have to be inferred from the charge, or was inferred and one group of quantities carries all of it. */
  lemma LinesExplainTotal(env: Env, log: Log)
    ensures var r := RowOf(env, log);
            Cost(r.lines) == r.official <==> Explained(r.sheet, Quantities(env, log), SettlementUSD(env, log))
  {
    hide SheetOf, Quantities, ComponentOf, Explained, Cost, SettlementUSD, RoutedModel, ChannelSettlement;
    ComponentExplains(env, log, SettlementUSD(env, log));
  }

  // ---------- Logs without negative fields ----------

  lemma TokensNotNegative(env: Env, log: Log)
    requires NoNegatives(env, log)
    ensures InputTokens(env, log) >= 0.0 && OutputTokens(env, log) >= 0.0
    ensures CacheWrite(env, log.other) >= 0.0 && CacheRead(env, log.other) >= 0.0
  {
    hide FieldNumber, FieldText, Lower;
  }

  ghost predicate LineNotNegative(line: Line) {
    line.usage >= 0.0 && line.official >= 0.0 && (line.usage == 0.0 ==> line.official == 0.0)
  }

  ghost predicate LinesNotNegative(lines: Lines) {
    && LineNotNegative(lines.a) && LineNotNegative(lines.b) && LineNotNegative(lines.c) && LineNotNegative(lines.d)
    && LineNotNegative(lines.e)
  }

  lemma PricedLine(usage: real, price: real)
    requires usage >= 0.0 && price >= 0.0
    ensures LineNotNegative(PerMillion(usage, price))
  {
    PerMillionNotNegative(usage, price);
  }

  lemma TokenLinesNotNegative(env: Env, log: Log)
    requires NoNegatives(env, log)
    ensures LinesNotNegative(TokenLines(env, log))
  {
    hide NoNegatives, BasePrices, InputTokens, OutputTokens, CacheWrite, CacheRead, PerMillion;
    TokensNotNegative(env, log);
    PricesNotNegative(env, log);
    var prices := BasePrices(env, log.other);
    PricedLine(InputTokens(env, log), prices.input);
    PricedLine(OutputTokens(env, log), prices.output);
    PricedLine(CacheWrite(env, log.other), prices.cacheWrite);
    PricedLine(CacheRead(env, log.other), prices.cacheRead);
  }

  lemma VideoLineNotNegative(env: Env, log: Log, mode: Mode)
    requires NoNegatives(env, log)
    ensures LineNotNegative(VideoLine(env, log.other, mode)) && LineNotNegative(VideoPrompt(env, log.other, mode))
  {
    hide FieldNumber, NoNegatives, First, BasePrices, VideoTokenPrice, PerMillion;
    PricesNotNegative(env, log);
    PricedLine(Positive(env, log.other, ["video_input_text_tokens"]), BasePrices(env, log.other).input);
    var line := VideoLine(env, log.other, mode);
    FieldNotNegative(env, log, ["global_video_price_per_second", "video_price_per_second"]);
    FieldNotNegative(env, log, ["global_video_price_per_video", "video_price_per_video"]);
    FieldNotNegative(env, log, ["global_model_price", "model_price"]);
    TokenPriceNotNegative(env, log);
    ProductNotNegative(line.price, line.usage);
  }

  lemma TokenPriceNotNegative(env: Env, log: Log)
    requires NoNegatives(env, log)
    ensures VideoTokenPrice(env, log.other) >= 0.0
  {
    hide FieldNumber, NoNegatives, First;
    var ratio := First(env, log.other, ["global_model_ratio", "model_ratio"]);
    var video := First(env, log.other, ["global_video_ratio", "video_ratio"]);
    FieldNotNegative(env, log, ["global_model_ratio", "model_ratio"]);
    FieldNotNegative(env, log, ["global_video_ratio", "video_ratio"]);
    ProductNotNegative(ratio, video);
    var completion := First(env, log.other, ["global_video_completion_ratio", "video_completion_ratio"]);
    ProductNotNegative(ratio * video, OneIfNone(completion));
  }

  lemma AudioMediaNotNegative(env: Env, log: Log, mode: Mode)
    requires NoNegatives(env, log)
    ensures LineNotNegative(AudioMedia(env, log.other, mode))
  {
    hide FieldNumber, NoNegatives, First;
    var line := AudioMedia(env, log.other, mode);
    FieldNotNegative(env, log, ["global_asr_price", "global_model_price", "asr_unit_price", "model_price"]);
    FieldNotNegative(env, log, ["global_model_price", "model_price"]);
    ProductNotNegative(line.price, line.usage);
  }

  lemma AudioPricesNotNegative(env: Env, log: Log)
    requires NoNegatives(env, log)
    ensures AudioInputPrice(env, log.other) >= 0.0 && AudioOutputPrice(env, log.other) >= 0.0
  {
    hide FieldNumber, NoNegatives, First, BasePrices;
    PricesNotNegative(env, log);
    var input, ratio := BasePrices(env, log.other).input, AudioRatio(env, log.other);
    var completion := First(env, log.other, ["global_audio_completion_ratio", "audio_completion_ratio"]);
    ProductNotNegative(input, ratio);
    ProductNotNegative(input * ratio, OneIfNone(completion));
  }

  lemma AudioTokensNotNegative(env: Env, log: Log)
    requires NoNegatives(env, log)
    ensures LinesNotNegative(AudioTokens(env, log))
  {
    hide FieldNumber, NoNegatives, BasePrices, PerMillion, AudioInputPrice, AudioOutputPrice;
    PricesNotNegative(env, log);
    AudioPricesNotNegative(env, log);
    var lines, prices := AudioTokens(env, log), BasePrices(env, log.other);
    PricedLine(lines.a.usage, prices.input);
    PricedLine(lines.b.usage, prices.output);
    PricedLine(lines.c.usage, AudioInputPrice(env, log.other));
    PricedLine(lines.d.usage, AudioOutputPrice(env, log.other));
  }

  lemma QuantitiesNotNegative(env: Env, log: Log)
    requires NoNegatives(env, log) && SheetOf(env, log.other) != ImageSheet
    ensures LinesNotNegative(Quantities(env, log))
  {
    hide SheetOf, NoNegatives, First, VideoMode, VideoPrompt, VideoLine, AudioMode, AudioTokens, AudioMedia, TokenLines;
    match SheetOf(env, log.other)
    case TextSheet => TokenLinesNotNegative(env, log);
    case VideoSheet => VideoLineNotNegative(env, log, VideoMode(env, log.other));
    case AudioSheet =>
      AudioTokensNotNegative(env, log);
      AudioMediaNotNegative(env, log, AudioMode(env, log.other));
  }

  /** Without negative fields the costs add up unless a positive charge meets no cost and no quantity to carry it. */
  lemma PlainLinesExplainTotal(env: Env, log: Log)
    requires NoNegatives(env, log)
    ensures var r, lines := RowOf(env, log), Quantities(env, log);
            Cost(r.lines) == r.official <==>
              Cost(lines) > 0.0 || Carries(r.sheet, lines) || SettlementUSD(env, log) == 0.0
  {
    hide SheetOf, NoNegatives, Quantities, ComponentOf, SettlementUSD, RoutedModel, ChannelSettlement;
    LinesExplainTotal(env, log);
    if SheetOf(env, log.other) != ImageSheet {
      QuantitiesNotNegative(env, log);
    }
  }

  lemma NothingIsText(env: Env)
    requires env.fmt.lower("") == ""
    ensures SheetOf(env, map[]) == TextSheet
  {
    hide FieldNumber, FieldText, TrimSpace;
    var other: Fields := map[];
    NoField(env, other, ["billing_mode"]);
    NoField(env, other, ["request_path"]);
    NoField(env, other, ["video_billed_quota", "video_seconds", "video_count", "video_output_tokens"]);
    NoField(env, other, ["video_billing_lane", "video_resolution"]);
    NoField(env, other, ["image_count", "image_output"]);
    NoField(env, other, ["audio_seconds", "audio_input", "audio_output", "audio_input_token_count"]);
    assert !Contains("", "video") && !Contains("", "/video") && !Contains("", "/image") && !Contains("", "/audio");
  }

  lemma NothingCosts(env: Env, log: Log)
    requires env.fmt.lower("") == "" && log.other == map[] && log.promptTokens == 0 && log.completionTokens == 0
    ensures Cost(Quantities(env, log)) == 0.0 && !Carries(TextSheet, Quantities(env, log))
  {
    hide FieldNumber, FieldText, SheetOf, BasePrices;
    NothingIsText(env);
    NoField(env, log.other, ["global_model_price", "model_price"]);
    NoField(env, log.other, ["tier_billed_input_tokens", "text_input"]);
    NoField(env, log.other, ["text_output"]);
    NoField(env, log.other, ["cache_write_tokens"]);
    NoField(env, log.other, ["cache_creation_tokens"]);
    NoField(env, log.other, ["cache_creation_tokens_5m"]);
    NoField(env, log.other, ["cache_creation_tokens_1h"]);
    NoField(env, log.other, ["cache_tokens", "cache_read_tokens", "cached_tokens", "prompt_cache_hit_tokens"]);
  }

  /** A text log that was charged and names nothing: its row shows an official total and no costs. */
  lemma UntokenedChargeIsUnexplained(env: Env)
    requires env.fmt.lower("") == ""
    ensures var r := RowOf(env, Log(1, Consume, 1, 1, 100, 0, 0, "m", "", 0, map[])); Cost(r.lines) != r.official
  {
    hide FieldNumber, FieldText, SheetOf, ComponentOf, RoutedModel, Quantities, Cost, Carries;
    var log := Log(1, Consume, 1, 1, 100, 0, 0, "m", "", 0, map[]);
    assert FinalQuota(env, log) == 100 by {
      NoField(env, log.other, ["billing_phase"]);
      NoField(env, log.other, ["video_final_quota", "actual_quota"]);
      NoField(env, log.other, ["video_billed_quota"]);
    }
    NothingIsText(env);
    NothingCosts(env, log);
    LinesExplainTotal(env, log);
  }

  // ---------- The charge of a log without priced quantities ----------

  /** Such a log reports its charge exactly when it was charged nothing or its discount is positive. */
  lemma RowKeepsCharge(env: Env, log: Log)
    requires Cost(Quantities(env, log)) <= 0.0
    ensures RowOf(env, log).settlement == SettlementUSD(env, log) <==>
            SettlementUSD(env, log) == 0.0 || OperatingDiscount(log.other) > 0.0
  {
    hide SheetOf, Quantities, ComponentOf, Cost, SettlementUSD, RoutedModel, ChannelSettlement, Official,
         OperatingDiscount;
    var usd := SettlementUSD(env, log);
    ComponentExplains(env, log, usd);
    FallbackKeepsCharge(log.other, Cost(Quantities(env, log)), usd);
  }

  lemma {:induction false} NoField(env: Env, other: Fields, keys: seq<string>)
    requires forall key <- keys :: key !in other
    ensures FieldNumber(env.fmt, other, keys) == None && FieldText(env.fmt, other, keys) == ""
  {
    if keys != [] {
      NoField(env, other, keys[1..]);
    }
  }

  ghost predicate FreeChannel(other: Fields) {
    other == map["channel_price_discount_percent" := Number(0.0)]
  }

  lemma FreeBasePrices(env: Env, other: Fields)
    requires FreeChannel(other)
    ensures BasePrices(env, other) == Prices(0.0, 0.0, 0.0, 0.0)
  {
    hide FieldNumber, FieldText, OneIfNone;
    NoField(env, other, ["global_model_ratio", "model_ratio"]);
  }

  lemma FreeVideo(env: Env, other: Fields, mode: Mode)
    requires FreeChannel(other)
    ensures VideoLine(env, other, mode).official == 0.0 && VideoPrompt(env, other, mode).official == 0.0
  {
    hide FieldNumber, FieldText, OneIfNone, BasePrices, Positive;
    FreeBasePrices(env, other);
    NoField(env, other, ["global_video_price_per_second", "video_price_per_second"]);
    NoField(env, other, ["global_video_price_per_video", "video_price_per_video"]);
    NoField(env, other, ["global_model_price", "model_price"]);
    NoField(env, other, ["video_global_token_price"]);
    NoField(env, other, ["global_model_ratio", "model_ratio"]);
  }

  lemma FreeImage(env: Env, other: Fields, mode: Mode)
    requires FreeChannel(other)
    ensures ImageLine(env, other, mode).official == 0.0
  {
    hide FieldNumber, FieldText, OneIfNone, Positive;
    NoField(env, other, ["image_global_rule_usd", "image_channel_rule_usd", "image_usd_per_image"]);
    NoField(env, other, ["global_model_price", "image_generation_call_price", "model_price"]);
    NoField(env, other, ["global_model_ratio", "model_ratio"]);
  }

  lemma FreeAudio(env: Env, log: Log)
    requires FreeChannel(log.other)
    ensures Cost(AudioLines(env, log)) == 0.0
  {
    hide FieldNumber, FieldText, OneIfNone, BasePrices, AudioMode, AtLeastZero;
    FreeBasePrices(env, log.other);
    NoField(env, log.other, ["audio_input_price"]);
    NoField(env, log.other, ["global_asr_price", "global_model_price", "asr_unit_price", "model_price"]);
    NoField(env, log.other, ["global_model_price", "model_price"]);
  }

  lemma FreeText(env: Env, log: Log)
    requires FreeChannel(log.other)
    ensures Cost(TokenLines(env, log)) == 0.0 && First(env, log.other, ["global_model_price", "model_price"]) == 0.0
  {
    hide FieldNumber, FieldText, BasePrices, InputTokens, OutputTokens, CacheRead, CacheWrite;
    FreeBasePrices(env, log.other);
    NoField(env, log.other, ["global_model_price", "model_price"]);
  }

  lemma FreeQuantities(env: Env, log: Log)
    requires FreeChannel(log.other)
    ensures Cost(Quantities(env, log)) == 0.0
  {
    hide SheetOf, First, FreeChannel, VideoMode, VideoPrompt, VideoLine, ImageMode, ImageLine, AudioLines, TokenLines;
    match SheetOf(env, log.other)
    case VideoSheet => FreeVideo(env, log.other, VideoMode(env, log.other));
    case ImageSheet => FreeImage(env, log.other, ImageMode(env, log.other));
    case AudioSheet => FreeAudio(env, log);
    case TextSheet => FreeText(env, log);
  }

  /** A channel with a stored discount of 0 hides the charge of a log that names no quantity: 100 units of quota were
      taken and the summary reports 0. */
  lemma FreeChannelHidesCharge(env: Env)
    ensures var log := Log(1, Consume, 1, 1, 100, 0, 0, "m", "", 0,
            map["channel_price_discount_percent" := Number(0.0)]);
            SettlementUSD(env, log) > 0.0 && Billable(env, log) && RowOf(env, log).settlement == 0.0
  {
    hide FieldNumber, FieldText, SheetOf, ComponentOf, RoutedModel;
    var other: Fields := map["channel_price_discount_percent" := Number(0.0)];
    var log := Log(1, Consume, 1, 1, 100, 0, 0, "m", "", 0, other);
    assert FinalQuota(env, log) == 100 by {
      NoField(env, other, ["billing_phase"]);
      NoField(env, other, ["video_final_quota", "actual_quota"]);
      NoField(env, other, ["video_billed_quota"]);
    }
    FreeQuantities(env, log);
    RowKeepsCharge(env, log);
    assert RowOf(env, log).settlement != SettlementUSD(env, log);
  }
}
