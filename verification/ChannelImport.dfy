/** Importing channel configurations: controller/channel_export_import.go over the sync-key and
    route-slug rules of model/channel_sync_key.go and model/route_slug.go.

    The channel table is a sequence in primary-key order; inserting appends, and nothing deletes. */
module ChannelImport {
  import opened Options
  import opened Text

  const TOKEN_FACTORY_OPEN := 60

  /** Columns that an import copies without looking at them. */
  datatype Column =
    | DiscountRate | OperatingCost | Markup | Status | Logo | Provider | Models | Mapping | Balance

  datatype Value = Str(s: string) | Num(r: real) | Whole(n: int)

  /** The part of a channel's extra information that identifies its upstream, and the rest of it. */
  datatype Info = Info(source: string, upstreamID: int, route: string, alias: string, channelNo: string, rest: string)

  datatype Channel = Channel(
    name: string, syncKey: string, kind: int, key: string, group: string, baseURL: string, routeSlug: string,
    info: Info, columns: map<Column, Value>)

  /** One entry of an import file: the fields that are present with the right type. `wellTyped` is the
      verdict of chValidateItem, `rulesAccepted` the one on the item's dynamic rates and upscale rules, which are
      imported after the channel is written; `drawn` is the key the generator draws if the item brings none. */
  datatype Item = Item(
    name: Option<string>, syncKey: Option<string>, kind: Option<int>, key: Option<string>,
    groups: Option<seq<string>>, baseURL: Option<string>, routeSlug: Option<string>, info: Option<Info>,
    columns: map<Column, Value>, wellTyped: bool, rulesAccepted: bool, drawn: string)

  /** The import request, and the slug a channel gets by its position when it asks for none. */
  datatype Setup = Setup(siteKey: string, defaultSlug: nat -> string)

  // ---------- Keys and slugs ----------

  predicate ValidSyncKey(s: string) {
    0 < |s| <= 64 && forall c <- s :: '!' <= c <= '~'
  }

  predicate IsDigit(c: char) {
    '0' <= c <= '9'
  }

  predicate Base62(c: char) {
    IsDigit(c) || 'A' <= c <= 'Z' || 'a' <= c <= 'z'
  }

  /** Two to thirty-two letters or digits, but not "c" and digits only. */
  predicate ValidSlug(s: string) {
    2 <= |s| <= 32 && (forall c <- s :: Base62(c)) && !(s[0] == 'c' && forall c <- s[1..] :: IsDigit(c))
  }

  /** The sync key of an item, trimmed; blank when it brings none. */
  function KeyOf(item: Item): string {
    if item.syncKey.Some? then TrimSpace(item.syncKey.value) else ""
  }

  function NameOf(item: Item): string {
    if item.name.Some? then TrimSpace(item.name.value) else ""
  }

  // ---------- Matching ----------

  function First(table: seq<Channel>, p: Channel -> bool): (r: Option<nat>)
    ensures r.Some? ==> r.value < |table| && p(table[r.value]) && forall i :: 0 <= i < r.value ==> !p(table[i])
    ensures r.None? ==> forall i :: 0 <= i < |table| ==> !p(table[i])
  {
    if table == [] then None
    else if First(table[..|table| - 1], p).Some? then First(table[..|table| - 1], p)
    else if p(table[|table| - 1]) then Some(|table| - 1)
    else None
  }

  function HasKey(key: string): Channel -> bool {
    (ch: Channel) => ch.syncKey == key
  }

  function HasName(name: string): Channel -> bool {
    (ch: Channel) => ch.name == name
  }

  predicate SiteBuilder(item: Item) {
    (item.kind.Some? && item.kind.value == TOKEN_FACTORY_OPEN)
    || (item.info.Some? && TrimSpace(item.info.value.source) == "tokenfactory_open")
  }

  datatype Identity = Identity(baseURL: string, upstreamID: int, route: string, alias: string, channelNo: string)

  function TrimSlashes(s: string): string {
    if s != "" && s[|s| - 1] == '/' then TrimSlashes(s[..|s| - 1]) else s
  }

  function IdentityOf(baseURL: string, info: Info): Identity {
    Identity(TrimSlashes(TrimSpace(baseURL)), info.upstreamID, TrimSpace(info.route), TrimSpace(info.alias),
      TrimSpace(info.channelNo))
  }

  function NoInfo(): Info {
    Info("", 0, "", "", "", "")
  }

  function ItemIdentity(item: Item): Identity {
    IdentityOf(item.baseURL.GetOr(""), item.info.GetOr(NoInfo()))
  }

  predicate HasRoute(a: Identity) {
    a.route != "" || a.upstreamID > 0 || (a.alias != "" && a.channelNo != "")
  }

  /** chSiteBuilderIdentityMatches: the first kind of identification that both sides have decides. */
  predicate Matches(a: Identity, b: Identity) {
    if a.baseURL != "" && b.baseURL != "" && a.baseURL != b.baseURL then false
    else if a.route != "" && b.route != "" then a.route == b.route
    else if a.upstreamID > 0 && b.upstreamID > 0 then a.upstreamID == b.upstreamID
    else if a.alias != "" && a.channelNo != "" && b.alias != "" && b.channelNo != "" then
      a.alias == b.alias && a.channelNo == b.channelNo
    else false
  }

  function Candidate(name: string): Channel -> bool {
    (ch: Channel) => ch.name == name && ch.kind == TOKEN_FACTORY_OPEN
  }

  function MatchingCandidate(name: string, incoming: Identity): Channel -> bool {
    (ch: Channel) => ch.name == name && ch.kind == TOKEN_FACTORY_OPEN
      && Matches(incoming, IdentityOf(ch.baseURL, ch.info))
  }

  /** The only channel that satisfies `p`, if there is just one. */
  function Only(table: seq<Channel>, p: Channel -> bool): Option<nat> {
    var first := First(table, p);
    if first.Some? && First(table[first.value + 1..], p).None? then first else None
  }

  datatype Lookup = Found(index: nat) | Missing | Invalid

  /** chFindExistingForImport */
  function Find(table: seq<Channel>, item: Item): (r: Lookup)
    ensures r.Found? ==> r.index < |table|
  {
    var key, name := KeyOf(item), NameOf(item);
    if key != "" && !ValidSyncKey(key) then Invalid
    else if key != "" && First(table, HasKey(key)).Some? then Found(First(table, HasKey(key)).value)
    else if !SiteBuilder(item) then
      var named := First(table, HasName(name));
      if named.None? then Missing
      else if key != "" && table[named.value].syncKey != "" && key != table[named.value].syncKey then Missing
      else Found(named.value)
    else
      var incoming := ItemIdentity(item);
      var hit :=
        if HasRoute(incoming) then First(table, MatchingCandidate(name, incoming)) else Only(table, Candidate(name));
      if hit.Some? then Found(hit.value) else Missing
  }

  // ---------- Writing ----------

  /** The names of a group list that are not blank, comma-separated. */
  function NonBlank(parts: seq<string>): seq<string> {
    if parts == [] then [] else
      NonBlank(parts[..|parts| - 1])
        + (if TrimSpace(parts[|parts| - 1]) == "" then [] else [TrimSpace(parts[|parts| - 1])])
  }

  function GroupText(groups: seq<string>): string {
    Join(NonBlank(groups), ',')
  }

  function ApiKey(setup: Setup, key: string, kind: int): string {
    if TrimSpace(key) == "" && setup.siteKey != "" && kind == TOKEN_FACTORY_OPEN then TrimSpace(setup.siteKey) else key
  }

  /** chApplyToExisting once its checks pass: only the columns the item brings. */
  function ApplyRow(setup: Setup, ch: Channel, item: Item): Channel {
    var kind := item.kind.GetOr(ch.kind);
    Channel(
      if NameOf(item) != "" then NameOf(item) else ch.name,
      if KeyOf(item) != "" then KeyOf(item) else ch.syncKey,
      kind,
      if item.key.Some? then ApiKey(setup, item.key.value, kind) else ch.key,
      if item.groups.Some? then GroupText(item.groups.value) else ch.group,
      item.baseURL.GetOr(ch.baseURL),
      item.routeSlug.GetOr(ch.routeSlug),
      item.info.GetOr(ch.info),
      ch.columns + item.columns)
  }

  /** The slug an inserted channel asks for; blank means the default. */
  function WantedSlug(setup: Setup, position: nat, item: Item): string {
    var wanted := TrimSpace(item.routeSlug.GetOr(""));
    if wanted == "" then setup.defaultSlug(position) else wanted
  }

  /** chApplyToNew and Insert once their checks pass. A blank group column takes the database default. */
  function NewRow(setup: Setup, position: nat, item: Item): Channel {
    var kind := item.kind.GetOr(0);
    var group := if item.groups.Some? then GroupText(item.groups.value) else "default";
    Channel(
      NameOf(item),
      if KeyOf(item) != "" then KeyOf(item) else item.drawn,
      kind,
      if item.key.Some? then ApiKey(setup, item.key.value, kind) else "",
      if group == "" then "default" else group,
      item.baseURL.GetOr(""),
      WantedSlug(setup, position, item),
      item.info.GetOr(NoInfo()),
      map[Status := Whole(1)] + item.columns)
  }

  predicate KeyTaken(table: seq<Channel>, key: string) {
    exists i :: 0 <= i < |table| && table[i].syncKey == key
  }

  predicate KeyTakenByOther(table: seq<Channel>, own: nat, key: string) {
    exists i :: 0 <= i < |table| && i != own && table[i].syncKey == key
  }

  predicate SlugTaken(table: seq<Channel>, slug: string) {
    exists i :: 0 <= i < |table| && table[i].routeSlug == slug
  }

  /** What insertion refuses: a slug that is malformed or in use, or a sync key in use. */
  predicate Insertable(setup: Setup, table: seq<Channel>, item: Item) {
    var row := NewRow(setup, |table|, item);
    && !KeyTaken(table, row.syncKey) && !SlugTaken(table, row.routeSlug)
    && (TrimSpace(item.routeSlug.GetOr("")) != "" ==> ValidSlug(row.routeSlug))
  }

  /** A channel was written, and the item's rules were or were not accepted; or nothing was written. */
  datatype Outcome = Updated(index: nat, complete: bool) | Added(complete: bool) | Failed

  function ImportOne(setup: Setup, table: seq<Channel>, item: Item): (r: (seq<Channel>, Outcome))
    ensures r.1.Failed? ==> r.0 == table
    ensures r.1.Added? ==> r.0 == table + [NewRow(setup, |table|, item)]
    ensures !r.1.Failed? ==> r.1.complete == item.rulesAccepted
    ensures r.1.Updated? ==> r.1.index < |table| && r.0 == table[r.1.index := ApplyRow(setup, table[r.1.index], item)]
  {
    if NameOf(item) == "" || !item.wellTyped then (table, Failed)
    else
      match Find(table, item)
      case Invalid => (table, Failed)
      case Found(i) =>
        if KeyOf(item) != "" && KeyTakenByOther(table, i, KeyOf(item)) then (table, Failed)
        else (table[i := ApplyRow(setup, table[i], item)], Updated(i, item.rulesAccepted))
      case Missing =>
        if Insertable(setup, table, item) then (table + [NewRow(setup, |table|, item)], Added(item.rulesAccepted))
        else (table, Failed)
  }

  function ImportAll(setup: Setup, table: seq<Channel>, items: seq<Item>): (r: (seq<Channel>, seq<Outcome>))
    ensures |r.1| == |items|
  {
    if items == [] then (table, []) else
      var before := ImportAll(setup, table, items[..|items| - 1]);
      var last := ImportOne(setup, before.0, items[|items| - 1]);
      (last.0, before.1 + [last.1])
  }

  datatype Totals = Totals(added: nat, updated: nat, failed: nat)

  /** An item whose rules are refused counts as failed, although its channel was written. */
  function Count(t: Totals, outcome: Outcome): Totals {
    if outcome.Failed? || !outcome.complete then t.(failed := t.failed + 1)
    else if outcome.Added? then t.(added := t.added + 1)
    else t.(updated := t.updated + 1)
  }

  function Tally(outcomes: seq<Outcome>): Totals {
    if outcomes == [] then Totals(0, 0, 0) else Count(Tally(outcomes[..|outcomes| - 1]), outcomes[|outcomes| - 1])
  }

  lemma TallyNone()
    ensures Tally([]) == Totals(0, 0, 0)
  {
  }

  lemma TallySnoc(outcomes: seq<Outcome>, last: Outcome)
    ensures Tally(outcomes + [last]) == Count(Tally(outcomes), last)
  {
    assert (outcomes + [last])[..|outcomes|] == outcomes;
  }

  class ChannelStore {
    var table: seq<Channel>

    /** The import loop. */
    method ImportChannels(setup: Setup, items: seq<Item>) returns (totals: Totals)
      modifies this
      ensures table == ImportAll(setup, old(table), items).0
      ensures totals == Tally(ImportAll(setup, old(table), items).1)
    {
      hide NewRow, ApplyRow, Find, Insertable, KeyOf, NameOf, KeyTakenByOther, ImportAll, Tally;
      ghost var start := table;
      ghost var outcomes: seq<Outcome> := [];
      totals := Totals(0, 0, 0);
      ImportNone(setup, table);
      TallyNone();
      for n := 0 to |items|
        invariant (table, outcomes) == ImportAll(setup, start, items[..n])
        invariant totals == Tally(outcomes)
      {
        var item := items[n];
        ImportSnoc(setup, start, items[..n], item);
        assert items[..n] + [item] == items[..n + 1];
        var outcome: Outcome := Failed;
        if NameOf(item) != "" && item.wellTyped {
          var lookup := Find(table, item);
          if lookup.Found? {
            if KeyOf(item) == "" || !KeyTakenByOther(table, lookup.index, KeyOf(item)) {
              table := table[lookup.index := ApplyRow(setup, table[lookup.index], item)];
              outcome := Updated(lookup.index, item.rulesAccepted);
            }
          } else if lookup.Missing? {
            if Insertable(setup, table, item) {
              table := table + [NewRow(setup, |table|, item)];
              outcome := Added(item.rulesAccepted);
            }
          }
        }
        if outcome.Failed? || !item.rulesAccepted {
          totals := totals.(failed := totals.failed + 1);
        } else if outcome.Added? {
          totals := totals.(added := totals.added + 1);
        } else {
          totals := totals.(updated := totals.updated + 1);
        }
        TallySnoc(outcomes, outcome);
        outcomes := outcomes + [outcome];
      }
      assert items[..|items|] == items;
    }
  }

  // ---------- Sync keys across an import ----------

  /** Stored sync keys that are not blank differ from each other. */
  predicate UniqueKeys(table: seq<Channel>) {
    forall i, j :: 0 <= i < j < |table| && table[i].syncKey != "" ==> table[i].syncKey != table[j].syncKey
  }

  /** An item of the kind the promise is about. */
  predicate Keyed(item: Item) {
    !SiteBuilder(item) && KeyOf(item) != "" && ValidSyncKey(KeyOf(item))
  }

  /** A keyed item never touches a channel that has another key, and never changes a key. */
  lemma KeyedItemStaysHome(setup: Setup, table: seq<Channel>, item: Item)
    requires UniqueKeys(table) && Keyed(item)
    ensures var (table', outcome) := ImportOne(setup, table, item);
            && UniqueKeys(table') && |table'| >= |table|
            && (forall i :: 0 <= i < |table| && table[i].syncKey != "" ==> table'[i].syncKey == table[i].syncKey)
            && (forall i :: 0 <= i < |table| && table[i].syncKey != "" && table[i].syncKey != KeyOf(item) ==>
              table'[i] == table[i])
            && (outcome.Added? ==> !KeyTaken(table, KeyOf(item)) && table'[|table|].syncKey == KeyOf(item))
            && (outcome.Updated? ==> table'[outcome.index].syncKey == KeyOf(item))
  {
    hide TrimSpace, ValidSyncKey, ValidSlug, GroupText, ApiKey, SiteBuilder, Find, WantedSlug, SlugTaken, KeyOf, NameOf;
    if Find(table, item).Found? {
      FindsBlankOrOwn(table, item);
    }
    KeyedHasKey(item);
  }

  /** A keyed item finds the channel with its key, or one without a key. */
  lemma FindsBlankOrOwn(table: seq<Channel>, item: Item)
    requires Keyed(item) && Find(table, item).Found?
    ensures var ch := table[Find(table, item).index]; ch.syncKey == "" || ch.syncKey == KeyOf(item)
  {
    hide TrimSpace, ValidSyncKey, SiteBuilder;
  }

  // ---------- Importing twice ----------

  /** Some channel holds the item's key. */
  predicate Placed(table: seq<Channel>, item: Item, index: nat) {
    index < |table| && table[index].syncKey == KeyOf(item)
  }

  predicate DistinctKeys(items: seq<Item>) {
    forall i, j :: 0 <= i < j < |items| ==> KeyOf(items[i]) != KeyOf(items[j])
  }

  /** A placed item is found by its key and updated, whatever else the table holds. */
  lemma PlacedIsUpdated(setup: Setup, table: seq<Channel>, item: Item, index: nat)
    requires UniqueKeys(table) && Keyed(item) && Placed(table, item, index) && NameOf(item) != "" && item.wellTyped
    ensures ImportOne(setup, table, item) ==
            (table[index := ApplyRow(setup, table[index], item)], Updated(index, item.rulesAccepted))
  {
    hide TrimSpace, ValidSyncKey, ApplyRow, NewRow, SiteBuilder, Insertable;
    var first := First(table, HasKey(KeyOf(item)));
    assert HasKey(KeyOf(item))(table[index]);
  }

  /** Writing an item into a row that already holds it changes nothing. */
  lemma ApplyTwice(setup: Setup, ch: Channel, item: Item)
    ensures ApplyRow(setup, ApplyRow(setup, ch, item), item) == ApplyRow(setup, ch, item)
  {
    hide TrimSpace, GroupText;
  }

  /** The fields of an inserted channel that insertion does not store as given: a slug must be trimmed
      and not blank, and a group list must name a group. */
  predicate Stable(item: Item) {
    && (item.routeSlug.Some? ==> item.routeSlug.value != "" && Trimmed(item.routeSlug.value))
    && (item.groups.Some? ==> GroupText(item.groups.value) != "")
  }

  /** Default slugs are stored as they are. */
  ghost predicate PlainDefaults(setup: Setup) {
    forall n :: setup.defaultSlug(n) != "" && Trimmed(setup.defaultSlug(n))
  }

  /** Importing an item again leaves the channel that inserting it made exactly when the item is stable. */
  lemma InsertThenApply(setup: Setup, position: nat, item: Item)
    requires Keyed(item) && NameOf(item) != "" && PlainDefaults(setup)
    ensures ApplyRow(setup, NewRow(setup, position, item), item) == NewRow(setup, position, item) <==> Stable(item)
  {
    hide GroupText, TrimSpace;
    var row := NewRow(setup, position, item);
    assert row.columns + item.columns == row.columns;
    assert setup.defaultSlug(position) != "" && Trimmed(setup.defaultSlug(position));
    assert TrimSpace("") == "";
  }

  /** The channel an accepted item made or updated, and how. */
  ghost predicate Settled(setup: Setup, table: seq<Channel>, item: Item, outcome: Outcome, index: nat) {
    && Placed(table, item, index)
    && (if outcome.Added? then exists position: nat :: table[index] == NewRow(setup, position, item)
        else exists before :: table[index] == ApplyRow(setup, before, item))
  }

  ghost predicate HasPlace(setup: Setup, table: seq<Channel>, item: Item, outcome: Outcome) {
    exists index: nat :: Settled(setup, table, item, outcome, index)
  }

  /** After an import of keyed items with distinct keys, every accepted item has its own channel. */
  lemma {:induction false} AcceptedItemsSettle(setup: Setup, table: seq<Channel>, items: seq<Item>)
    requires UniqueKeys(table) && DistinctKeys(items) && forall n :: 0 <= n < |items| ==> Keyed(items[n])
    ensures var (table', outcomes) := ImportAll(setup, table, items);
            && UniqueKeys(table')
            && forall n :: 0 <= n < |items| && !outcomes[n].Failed? ==>
                 NameOf(items[n]) != "" && items[n].wellTyped
                 && HasPlace(setup, table', items[n], outcomes[n])
  {
    hide ImportOne, NewRow, ApplyRow, Keyed, KeyOf, NameOf;
    if items != [] {
      var prefix, last := items[..|items| - 1], items[|items| - 1];
      AcceptedItemsSettle(setup, table, prefix);
      var (mid, before) := ImportAll(setup, table, prefix);
      var (after, outcome) := ImportOne(setup, mid, last);
      KeyedItemStaysHome(setup, mid, last);
      LastSettles(setup, mid, last);
      forall n | 0 <= n < |prefix| && !before[n].Failed?
        ensures HasPlace(setup, after, items[n], before[n])
      {
        var index: nat :| Settled(setup, mid, prefix[n], before[n], index);
        SettledStays(setup, mid, last, prefix[n], before[n], index);
      }
    }
  }

  lemma LastSettles(setup: Setup, table: seq<Channel>, item: Item)
    requires UniqueKeys(table) && Keyed(item)
    ensures var (table', outcome) := ImportOne(setup, table, item);
            !outcome.Failed? ==> NameOf(item) != "" && item.wellTyped && HasPlace(setup, table', item, outcome)
  {
    hide NewRow, ApplyRow, Keyed, KeyOf, Insertable, KeyTakenByOther, Find;
    KeyedItemStaysHome(setup, table, item);
    var (table', outcome) := ImportOne(setup, table, item);
    if outcome.Added? {
      assert Settled(setup, table', item, outcome, |table|);
    } else if outcome.Updated? {
      assert Settled(setup, table', item, outcome, outcome.index);
    }
  }

  lemma SettledStays(setup: Setup, table: seq<Channel>, item: Item, other: Item, outcome: Outcome, index: nat)
    requires UniqueKeys(table) && Keyed(item) && Keyed(other) && KeyOf(item) != KeyOf(other)
    requires Settled(setup, table, other, outcome, index)
    ensures Settled(setup, ImportOne(setup, table, item).0, other, outcome, index)
  {
    hide NewRow, ApplyRow, ImportOne;
    KeyedItemStaysHome(setup, table, item);
  }

  /** The second import of placed items updates each in place, and changes the table exactly when some
      item changes its own channel. */
  lemma {:induction false} PlacedImport(setup: Setup, table: seq<Channel>, items: seq<Item>, at: seq<nat>)
    requires UniqueKeys(table) && DistinctKeys(items) && |at| == |items|
    requires forall n :: 0 <= n < |items| ==>
               at[n] < |table| && Keyed(items[n]) && NameOf(items[n]) != "" && items[n].wellTyped
                 && Placed(table, items[n], at[n])
    ensures var (table', outcomes) := ImportAll(setup, table, items);
            && |table'| == |table| && UniqueKeys(table')
            && (forall n :: 0 <= n < |items| ==>
              && outcomes[n] == Updated(at[n], items[n].rulesAccepted)
              && table'[at[n]] == ApplyRow(setup, table[at[n]], items[n]))
            && (forall i :: 0 <= i < |table| && (forall n :: 0 <= n < |items| ==> at[n] != i) ==> table'[i] == table[i])
            && (forall i :: 0 <= i < |table| ==> table'[i].syncKey == table[i].syncKey)
  {
    hide ImportOne, NewRow, ApplyRow, Keyed, KeyOf, NameOf, UniqueKeys, ImportAll;
    if items == [] {
      assert ImportAll(setup, table, items) == (table, []) by {
        ImportNone(setup, table);
      }
    } else {
      var k := |items| - 1;
      var prefix, last := items[..k], items[k];
      assert forall n :: 0 <= n < k ==> at[n] != at[k];
      PlacedImport(setup, table, prefix, at[..k]);
      ImportSnoc(setup, table, prefix, last);
      assert prefix + [last] == items;
      var (mid, before) := ImportAll(setup, table, prefix);
      assert Placed(mid, last, at[k]) && mid[at[k]] == table[at[k]];
      PlacedIsUpdated(setup, mid, last, at[k]);
      KeyedItemStaysHome(setup, mid, last);
      UpdateKeepsKey(setup, mid[at[k]], last);
      hide Placed, DistinctKeys;
      var after := mid[at[k] := ApplyRow(setup, table[at[k]], last)];
      assert ImportAll(setup, table, items).0 == after;
      forall n | 0 <= n < k
        ensures ImportAll(setup, table, items).1[n] == Updated(at[n], items[n].rulesAccepted)
        ensures after[at[n]] == ApplyRow(setup, table[at[n]], items[n])
      {
        assert items[n] == prefix[n] && at[n] == at[..k][n];
      }
      forall i | 0 <= i < |table| && forall n :: 0 <= n < |items| ==> at[n] != i ensures after[i] == table[i] {
        assert at[k] != i && forall n :: 0 <= n < k ==> at[..k][n] != i;
      }
    }
  }

  lemma ImportNone(setup: Setup, table: seq<Channel>)
    ensures ImportAll(setup, table, []) == (table, [])
  {
  }

  lemma UpdateKeepsKey(setup: Setup, ch: Channel, item: Item)
    requires Keyed(item)
    ensures ApplyRow(setup, ch, item).syncKey == KeyOf(item)
  {
    hide TrimSpace;
  }

  lemma {:induction false} TallyAllUpdated(outcomes: seq<Outcome>)
    requires forall n :: 0 <= n < |outcomes| ==> outcomes[n].Updated? && outcomes[n].complete
    ensures Tally(outcomes) == Totals(0, |outcomes|, 0)
  {
    if outcomes != [] {
      TallyAllUpdated(outcomes[..|outcomes| - 1]);
    }
  }

  lemma {:induction false} TallyNoFailures(outcomes: seq<Outcome>)
    ensures Tally(outcomes).failed == 0 <==>
            forall n :: 0 <= n < |outcomes| ==> !outcomes[n].Failed? && outcomes[n].complete
  {
    if outcomes != [] {
      TallyNoFailures(outcomes[..|outcomes| - 1]);
    }
  }

  /** What a settled channel does when its item comes again. */
  lemma SettledAgain(setup: Setup, table: seq<Channel>, item: Item, outcome: Outcome, index: nat)
    requires Settled(setup, table, item, outcome, index) && !outcome.Failed? && Keyed(item) && NameOf(item) != ""
             && PlainDefaults(setup)
    ensures ApplyRow(setup, table[index], item) == table[index] <==> (outcome.Added? ==> Stable(item))
  {
    hide NewRow, ApplyRow, Stable, Keyed;
    if outcome.Added? {
      var position: nat :| table[index] == NewRow(setup, position, item);
      InsertThenApply(setup, position, item);
    } else {
      var before :| table[index] == ApplyRow(setup, before, item);
      ApplyTwice(setup, before, item);
    }
  }

  lemma SettledIsPlaced(setup: Setup, table: seq<Channel>, item: Item, outcome: Outcome, index: nat)
    requires Settled(setup, table, item, outcome, index)
    ensures index < |table| && Placed(table, item, index)
  {
    hide NewRow, ApplyRow, KeyOf;
  }

  /** Keys that are set stay where they are through any import of keyed items. */
  lemma {:induction false} ImportKeepsKeys(setup: Setup, table: seq<Channel>, items: seq<Item>)
    requires UniqueKeys(table) && forall n :: 0 <= n < |items| ==> Keyed(items[n])
    ensures var table' := ImportAll(setup, table, items).0;
            && UniqueKeys(table') && |table'| >= |table|
            && forall i :: 0 <= i < |table| && table[i].syncKey != "" ==> table'[i].syncKey == table[i].syncKey
  {
    hide ImportOne, Keyed;
    if items != [] {
      var prefix := items[..|items| - 1];
      ImportKeepsKeys(setup, table, prefix);
      KeyedItemStaysHome(setup, ImportAll(setup, table, prefix).0, items[|items| - 1]);
    }
  }

  lemma {:induction false} OutcomeOfPrefix(setup: Setup, table: seq<Channel>, items: seq<Item>, n: nat)
    requires n < |items|
    ensures ImportAll(setup, table, items).1[n] == ImportOne(setup, ImportAll(setup, table, items[..n]).0, items[n]).1
    decreases |items|
  {
    hide ImportOne, ImportAll;
    var k := |items| - 1;
    var prefix, last := items[..k], items[k];
    ImportSnoc(setup, table, prefix, last);
    assert prefix + [last] == items;
    if n < k {
      assert prefix[..n] == items[..n];
      OutcomeOfPrefix(setup, table, prefix, n);
    }
  }

  /** Even when the first import refuses some items, the second updates every item the first accepted. */
  lemma AcceptedAreUpdatedAgain(setup: Setup, table: seq<Channel>, items: seq<Item>, n: nat)
    requires UniqueKeys(table) && DistinctKeys(items) && n < |items|
    requires forall k :: 0 <= k < |items| ==> Keyed(items[k])
    requires !ImportAll(setup, table, items).1[n].Failed?
    ensures ImportAll(setup, ImportAll(setup, table, items).0, items).1[n].Updated?
  {
    hide ImportAll, ImportOne, Keyed, KeyOf, NameOf, Settled;
    var (once, outcomes) := ImportAll(setup, table, items);
    AcceptedItemsSettle(setup, table, items);
    var index: nat :| Settled(setup, once, items[n], outcomes[n], index);
    SettledIsPlaced(setup, once, items[n], outcomes[n], index);
    var mid := ImportAll(setup, once, items[..n]).0;
    ImportKeepsKeys(setup, once, items[..n]);
    KeyedHasKey(items[n]);
    assert Placed(mid, items[n], index);
    PlacedIsUpdated(setup, mid, items[n], index);
    OutcomeOfPrefix(setup, once, items, n);
  }

  lemma KeyedHasKey(item: Item)
    requires Keyed(item)
    ensures KeyOf(item) != ""
  {
  }

  // ---------- The second import of any file ----------

  /** What import refuses, read off the table before: no name, a field of the wrong type, or a new channel that cannot
      be inserted. */
  predicate Refuses(setup: Setup, table: seq<Channel>, item: Item) {
    NameOf(item) == "" || !item.wellTyped || (Find(table, item).Missing? && !Insertable(setup, table, item))
  }

  lemma RefusesExactly(setup: Setup, table: seq<Channel>, item: Item)
    requires UniqueKeys(table) && Keyed(item)
    ensures ImportOne(setup, table, item).1.Failed? <==> Refuses(setup, table, item)
  {
    hide TrimSpace, ValidSyncKey, ApplyRow, NewRow, SiteBuilder, Insertable, NameOf;
  }

  /** A channel that an import of keyed items changed holds the key of one of them. */
  lemma {:induction false} ChangedHasKey(setup: Setup, table: seq<Channel>, items: seq<Item>)
    requires UniqueKeys(table) && forall n :: 0 <= n < |items| ==> Keyed(items[n])
    ensures var table' := ImportAll(setup, table, items).0;
            && |table'| >= |table| && UniqueKeys(table')
            && forall i :: 0 <= i < |table| ==> table'[i] == table[i] || HoldsKeyOf(items, table'[i])
  {
    hide ImportOne, Keyed, KeyOf;
    if items != [] {
      var prefix, last := items[..|items| - 1], items[|items| - 1];
      ChangedHasKey(setup, table, prefix);
      var mid := ImportAll(setup, table, prefix).0;
      KeyedItemStaysHome(setup, mid, last);
      forall i | 0 <= i < |table| && HoldsKeyOf(prefix, mid[i]) ensures HoldsKeyOf(items, mid[i]) {
        var n :| 0 <= n < |prefix| && mid[i].syncKey == KeyOf(prefix[n]);
        assert items[n] == prefix[n];
      }
    }
  }

  ghost predicate HoldsKeyOf(items: seq<Item>, ch: Channel) {
    exists n :: 0 <= n < |items| && ch.syncKey == KeyOf(items[n])
  }

  /** An import of keyed items with distinct keys changes nothing exactly when none of them would, on its own: what one
      item writes no other item undoes. */
  lemma {:induction false} UnchangedItemByItem(setup: Setup, table: seq<Channel>, items: seq<Item>)
    requires UniqueKeys(table) && DistinctKeys(items) && forall n :: 0 <= n < |items| ==> Keyed(items[n])
    ensures ImportAll(setup, table, items).0 == table <==>
            forall n :: 0 <= n < |items| ==> ImportOne(setup, table, items[n]).0 == table
    ensures ImportAll(setup, table, items).0 == table ==>
            forall n :: 0 <= n < |items| ==> ImportAll(setup, table, items).1[n] == ImportOne(setup, table, items[n]).1
  {
    hide ImportOne, Keyed, KeyOf;
    if items != [] {
      var prefix, last := items[..|items| - 1], items[|items| - 1];
      UnchangedItemByItem(setup, table, prefix);
      assert forall n :: 0 <= n < |prefix| ==> items[n] == prefix[n];
      if ImportAll(setup, table, items).0 == table {
        LastUndoesNothing(setup, table, prefix, last);
      }
    }
  }

  lemma LastUndoesNothing(setup: Setup, table: seq<Channel>, items: seq<Item>, last: Item)
    requires UniqueKeys(table) && Keyed(last) && forall n :: 0 <= n < |items| ==> Keyed(items[n])
    requires forall n :: 0 <= n < |items| ==> KeyOf(items[n]) != KeyOf(last)
    requires ImportOne(setup, ImportAll(setup, table, items).0, last).0 == table
    ensures ImportAll(setup, table, items).0 == table
  {
    hide Keyed, KeyOf, ImportAll, ApplyRow, NewRow, Find, Insertable, KeyTakenByOther, NameOf;
    ChangedHasKey(setup, table, items);
    var mid := ImportAll(setup, table, items).0;
    KeyedItemStaysHome(setup, mid, last);
    var (after, outcome) := ImportOne(setup, mid, last);
    assert !outcome.Added?;
    if outcome.Updated? {
      var i := outcome.index;
      assert after[i].syncKey == KeyOf(last);
      forall j | 0 <= j < |table| ensures mid[j] == table[j] {
        if j == i && HoldsKeyOf(items, mid[i]) {
          var n :| 0 <= n < |items| && mid[i].syncKey == KeyOf(items[n]);
          KeyedHasKey(items[n]);
          assert false;
        }
      }
    }
  }

  /** The key of an item that was refused, although it has a name and its types are right, is in no channel. */
  lemma {:induction false} RefusedKeyIsAbsent(setup: Setup, table: seq<Channel>, items: seq<Item>, n: nat)
    requires UniqueKeys(table) && DistinctKeys(items) && n < |items|
    requires forall k :: 0 <= k < |items| ==> Keyed(items[k])
    requires ImportAll(setup, table, items).1[n].Failed? && NameOf(items[n]) != "" && items[n].wellTyped
    ensures !KeyTaken(ImportAll(setup, table, items).0, KeyOf(items[n]))
    decreases |items|
  {
    hide ImportOne, Keyed, KeyOf, NameOf;
    var prefix, last := items[..|items| - 1], items[|items| - 1];
    var mid := ImportAll(setup, table, prefix).0;
    ImportKeepsKeys(setup, table, prefix);
    KeyedItemStaysHome(setup, mid, last);
    if n < |prefix| {
      RefusedKeyIsAbsent(setup, table, prefix, n);
      KeyStaysAbsent(setup, mid, last, KeyOf(items[n]));
    } else if i :| 0 <= i < |mid| && mid[i].syncKey == KeyOf(last) {
      PlacedIsUpdated(setup, mid, last, i);
      assert false;
    }
  }

  lemma KeyStaysAbsent(setup: Setup, table: seq<Channel>, item: Item, key: string)
    requires UniqueKeys(table) && Keyed(item) && key != KeyOf(item) && !KeyTaken(table, key)
    ensures !KeyTaken(ImportOne(setup, table, item).0, key)
  {
    hide Keyed, KeyOf, ApplyRow, NewRow, Find, Insertable, KeyTakenByOther, NameOf;
    KeyedItemStaysHome(setup, table, item);
  }

  /** What an item does that was in the first import and comes again, on the table the first import left. */
  lemma ComesAgain(setup: Setup, table: seq<Channel>, items: seq<Item>, n: nat)
    requires UniqueKeys(table) && DistinctKeys(items) && PlainDefaults(setup) && n < |items|
    requires forall k :: 0 <= k < |items| ==> Keyed(items[k])
    ensures var (once, outcomes) := ImportAll(setup, table, items);
            && UniqueKeys(once)
            && (ImportOne(setup, once, items[n]).0 == once <==> Keeps(setup, once, items[n], outcomes[n]))
            && (!outcomes[n].Failed? ==> ImportOne(setup, once, items[n]).1.Updated?)
            && (outcomes[n].Failed? ==>
                  (ImportOne(setup, once, items[n]).1.Failed? <==> Keeps(setup, once, items[n], outcomes[n])))
  {
    hide ImportAll, ApplyRow, NewRow, Find, Insertable, KeyTakenByOther, Keyed, KeyOf, NameOf, Stable, Refuses;
    var (once, outcomes) := ImportAll(setup, table, items);
    var item := items[n];
    AcceptedItemsSettle(setup, table, items);
    RefusesExactly(setup, once, item);
    KeyedItemStaysHome(setup, once, item);
    if outcomes[n].Failed? {
      if NameOf(item) != "" && item.wellTyped {
        RefusedKeyIsAbsent(setup, table, items, n);
      }
    } else {
      var index: nat :| Settled(setup, once, item, outcomes[n], index);
      SettledIsPlaced(setup, once, item, outcomes[n], index);
      PlacedIsUpdated(setup, once, item, index);
      SettledAgain(setup, once, item, outcomes[n], index);
    }
  }

  /** A refused item is refused again, and an inserted one reads back as it was written. */
  predicate Keeps(setup: Setup, once: seq<Channel>, item: Item, outcome: Outcome) {
    if outcome.Failed? then Refuses(setup, once, item) else outcome.Added? ==> Stable(item)
  }

  /** Importing any file of keyed items with distinct keys twice leaves the table as the first import left it exactly
      when every item the first one refused would be refused by that table, and every item it inserted is stable. Then
      the second import adds nothing, updates what the first accepted and refuses what the first refused. */
  lemma SecondImportExactly(setup: Setup, table: seq<Channel>, items: seq<Item>)
    requires UniqueKeys(table) && DistinctKeys(items) && PlainDefaults(setup)
    requires forall n :: 0 <= n < |items| ==> Keyed(items[n])
    ensures var (once, outcomes) := ImportAll(setup, table, items);
            var (twice, again) := ImportAll(setup, once, items);
            && (twice == once <==> forall n :: 0 <= n < |items| ==> Keeps(setup, once, items[n], outcomes[n]))
            && (twice == once ==>
                  var first := Tally(outcomes);
                  Tally(again) == Totals(0, first.added + first.updated, first.failed))
  {
    hide ImportAll, ImportOne, Keyed, KeyOf, Keeps, Tally, PlainDefaults, DistinctKeys, UniqueKeys;
    var (once, outcomes) := ImportAll(setup, table, items);
    var (twice, again) := ImportAll(setup, once, items);
    AcceptedItemsSettle(setup, table, items);
    UnchangedItemByItem(setup, once, items);
    forall n | 0 <= n < |items|
      ensures ImportOne(setup, once, items[n]).0 == once <==> Keeps(setup, once, items[n], outcomes[n])
    {
      ComesAgain(setup, table, items, n);
    }
    if twice == once {
      forall n | 0 <= n < |items| ensures UpdatedLike(outcomes[n], again[n]) {
        CompleteAsRules(setup, table, items, n);
        CompleteAsRules(setup, once, items, n);
        assert ImportOne(setup, once, items[n]).0 == once && again[n] == ImportOne(setup, once, items[n]).1;
        ComesAgain(setup, table, items, n);
      }
      TallyAgain(outcomes, again);
    }
  }

  /** What was refused is refused, and what was written is updated, with the same verdict on its rules. */
  predicate UpdatedLike(outcome: Outcome, again: Outcome) {
    if outcome.Failed? then again.Failed? else again.Updated? && again.complete == outcome.complete
  }

  lemma CompleteAsRules(setup: Setup, table: seq<Channel>, items: seq<Item>, n: nat)
    requires n < |items|
    ensures var outcome := ImportAll(setup, table, items).1[n];
            !outcome.Failed? ==> outcome.complete == items[n].rulesAccepted
  {
    hide ImportAll;
    OutcomeOfPrefix(setup, table, items, n);
  }

  lemma {:induction false} TallyAgain(outcomes: seq<Outcome>, again: seq<Outcome>)
    requires |again| == |outcomes|
    requires forall n :: 0 <= n < |again| ==> UpdatedLike(outcomes[n], again[n])
    ensures var first := Tally(outcomes); Tally(again) == Totals(0, first.added + first.updated, first.failed)
  {
    if outcomes != [] {
      TallyAgain(outcomes[..|outcomes| - 1], again[..|again| - 1]);
    }
  }

  /** In particular, when the first import of keyed items with distinct keys accepts every item,
      the second adds none, updates all of them, and leaves the table as it is exactly when every item
      that the first one inserted is stable. */
  lemma ImportTwice(setup: Setup, table: seq<Channel>, items: seq<Item>)
    requires UniqueKeys(table) && DistinctKeys(items) && PlainDefaults(setup)
    requires forall n :: 0 <= n < |items| ==> Keyed(items[n])
    requires Tally(ImportAll(setup, table, items).1).failed == 0
    ensures var (once, outcomes) := ImportAll(setup, table, items);
            var (twice, again) := ImportAll(setup, once, items);
            && Tally(again) == Totals(0, |items|, 0)
            && (twice == once <==> forall n :: 0 <= n < |items| && outcomes[n].Added? ==> Stable(items[n]))
  {
    hide ImportAll, Keyed, KeyOf, Stable, Tally, Refuses, PlainDefaults;
    var (once, outcomes) := ImportAll(setup, table, items);
    var (twice, again) := ImportAll(setup, once, items);
    TallyNoFailures(outcomes);
    SecondImportExactly(setup, table, items);
    forall n | 0 <= n < |items| ensures again[n].Updated? && again[n].complete {
      CompleteAsRules(setup, table, items, n);
      CompleteAsRules(setup, once, items, n);
      AcceptedAreUpdatedAgain(setup, table, items, n);
    }
    TallyAllUpdated(again);
    assert forall n :: 0 <= n < |items| ==> (Keeps(setup, once, items[n], outcomes[n]) <==>
                                             (outcomes[n].Added? ==> Stable(items[n])));
  }

  // ---------- Where the promise stops ----------

  function Blank(): Item {
    Item(None, None, None, None, None, None, None, None, map[], true, true, "")
  }

  function Holder(slug: string): Channel {
    Channel("c", "k1", 0, "", "default", "", slug, NoInfo(), map[])
  }

  function Refused(): Item {
    Blank().(name := Some("p"), syncKey := Some("k2"), routeSlug := Some("aa"))
  }

  function Freeing(): Item {
    Blank().(name := Some("c"), syncKey := Some("k1"), routeSlug := Some("bb"))
  }

  lemma RefusedThenFreed(setup: Setup)
    ensures ImportOne(setup, [Holder("aa")], Refused()) == ([Holder("aa")], Failed)
    ensures ImportOne(setup, [Holder("aa")], Freeing()) == ([Holder("bb")], Updated(0, true))
  {
    hide TrimSpace, ValidSlug, ValidSyncKey, First, GroupText, ApiKey;
    PlainStrings();
    var table := [Holder("aa")];
    assert table[0].routeSlug == "aa";
    assert KeyOf(Refused()) == "k2" && NameOf(Refused()) == "p" && KeyOf(Freeing()) == "k1" && NameOf(Freeing()) == "c";
    assert First(table, HasKey("k2")).None? && First(table, HasName("p")).None?;
    assert WantedSlug(setup, 1, Refused()) == "aa";
    assert HasKey("k1")(table[0]) && First(table, HasKey("k1")) == Some(0);
    assert Find(table, Freeing()) == Found(0);
    assert map[] + Freeing().columns == Holder("aa").columns;
    assert ApplyRow(setup, table[0], Freeing()) == Holder("bb");
    assert table[0 := Holder("bb")] == [Holder("bb")];
  }

  lemma AddedAfterFreeing(setup: Setup)
    ensures ImportOne(setup, [Holder("bb")], Refused()).1 == Added(true)
  {
    hide TrimSpace, ValidSlug, ValidSyncKey, First, GroupText, ApiKey;
    PlainStrings();
    var table := [Holder("bb")];
    assert KeyOf(Refused()) == "k2" && NameOf(Refused()) == "p";
    assert First(table, HasKey("k2")).None? && First(table, HasName("p")).None?;
    assert WantedSlug(setup, 1, Refused()) == "aa";
    assert Find(table, Refused()) == Missing;
    assert Insertable(setup, table, Refused());
  }

  /** A refused item can be added by the second import: its slug was in use when it came first, and an
      item after it gave that slug up. */
  lemma RefusedItemMayBeAddedLater(setup: Setup)
    ensures var (once, outcomes) := ImportAll(setup, [Holder("aa")], [Refused(), Freeing()]);
            outcomes == [Failed, Updated(0, true)] && ImportOne(setup, once, Refused()).1 == Added(true)
  {
    hide ImportOne;
    RefusedThenFreed(setup);
    AddedAfterFreeing(setup);
    var none: seq<Item> := [];
    ImportSnoc(setup, [Holder("aa")], none, Refused());
    ImportSnoc(setup, [Holder("aa")], none + [Refused()], Freeing());
    assert none + [Refused()] + [Freeing()] == [Refused(), Freeing()];
  }

  lemma ImportSnoc(setup: Setup, table: seq<Channel>, items: seq<Item>, item: Item)
    ensures var before := ImportAll(setup, table, items);
            var last := ImportOne(setup, before.0, item);
            ImportAll(setup, table, items + [item]) == (last.0, before.1 + [last.1])
  {
    hide ImportOne;
    assert (items + [item])[..|items|] == items;
  }

  function Spaced(): Item {
    Blank().(name := Some("p"), syncKey := Some("k2"), routeSlug := Some("aa "))
  }

  /** An item with a space after its slug is not stable: inserted, the channel gets the trimmed slug, and the second
      import overwrites it with the one in the file. */
  lemma SpacedSlugIsOverwritten(setup: Setup)
    ensures var (once, outcomes) := ImportAll(setup, [], [Spaced()]);
            var (twice, again) := ImportAll(setup, once, [Spaced()]);
            && !Stable(Spaced()) && outcomes == [Added(true)] && again == [Updated(0, true)]
            && once[0].routeSlug == "aa" && twice == [once[0].(routeSlug := "aa ")]
  {
    hide ImportOne, TrimSpace;
    SpacedIsAdded(setup);
    var none: seq<Item> := [];
    var row := NewRow(setup, 0, Spaced());
    SpacedIsUpdated(setup, row);
    ImportSnoc(setup, [], none, Spaced());
    ImportSnoc(setup, [row], none, Spaced());
    assert none + [Spaced()] == [Spaced()];
  }

  lemma SpacedIsAdded(setup: Setup)
    ensures ImportOne(setup, [], Spaced()) == ([NewRow(setup, 0, Spaced())], Added(true))
    ensures NewRow(setup, 0, Spaced()).routeSlug == "aa" && NewRow(setup, 0, Spaced()).syncKey == "k2"
  {
    hide TrimSpace, ValidSlug, ValidSyncKey, First, GroupText, ApiKey;
    PlainStrings();
    SpacedSlug();
    assert KeyOf(Spaced()) == "k2" && NameOf(Spaced()) == "p";
    assert First([], HasKey("k2")).None? && First([], HasName("p")).None?;
    assert Find([], Spaced()) == Missing;
    assert Insertable(setup, [], Spaced());
    var none: seq<Channel> := [];
    assert none + [NewRow(setup, 0, Spaced())] == [NewRow(setup, 0, Spaced())];
  }

  lemma SpacedIsUpdated(setup: Setup, row: Channel)
    requires row == NewRow(setup, 0, Spaced()) && row.syncKey == "k2"
    ensures ImportOne(setup, [row], Spaced()) == ([row.(routeSlug := "aa ")], Updated(0, true))
  {
    hide TrimSpace, ValidSlug, ValidSyncKey, First, GroupText, ApiKey;
    PlainStrings();
    assert KeyOf(Spaced()) == "k2" && NameOf(Spaced()) == "p";
    assert HasKey("k2")([row][0]) && First([row], HasKey("k2")) == Some(0);
    assert row.columns + Spaced().columns == row.columns;
    assert ApplyRow(setup, row, Spaced()) == row.(routeSlug := "aa ");
    assert Find([row], Spaced()) == Found(0);
    assert [row][0 := row.(routeSlug := "aa ")] == [row.(routeSlug := "aa ")];
  }

  lemma SpacedSlug()
    ensures TrimSpace("aa ") == "aa"
  {
    assert "aa "[..2] == "aa";
  }

  lemma PlainStrings()
    ensures TrimSpace("aa") == "aa" && TrimSpace("bb") == "bb" && TrimSpace("k1") == "k1" && TrimSpace("k2") == "k2"
    ensures TrimSpace("p") == "p" && TrimSpace("c") == "c" && TrimSpace("") == ""
    ensures ValidSlug("aa") && ValidSyncKey("k1") && ValidSyncKey("k2")
  {
    hide TrimSpace;
    assert "aa"[1..] == "a";
  }

  /** A site-builder item is matched by its upstream and may overwrite the sync key of the channel it
      finds; that is why the promise leaves such items out. */
  lemma SiteBuilderItemRebinds(setup: Setup)
    ensures var holder := Channel("c", "k1", TOKEN_FACTORY_OPEN, "", "default", "", "aa", NoInfo(), map[]);
            var item := Blank().(name := Some("c"), syncKey := Some("k2"), kind := Some(TOKEN_FACTORY_OPEN));
            var (table, outcome) := ImportOne(setup, [holder], item);
            outcome == Updated(0, true) && holder.syncKey == "k1" && table[0].syncKey == "k2"
  {
    var holder := Channel("c", "k1", TOKEN_FACTORY_OPEN, "", "default", "", "aa", NoInfo(), map[]);
    PlainStrings();
    assert First([holder], HasKey("k2")) == None;
    assert First([holder], Candidate("c")) == Some(0);
    assert [holder][1..] == [];
    var unrouted := Blank().(name := Some("c"), syncKey := Some("k2"), kind := Some(TOKEN_FACTORY_OPEN));
    assert !HasRoute(ItemIdentity(unrouted)) by {
      assert TrimSpace("") == "";
    }
  }

  /** Upstream identities match symmetrically, and an identity matches itself exactly when it names a
      route at all. */
  lemma IdentityMatching(a: Identity, b: Identity)
    ensures Matches(a, b) == Matches(b, a)
    ensures Matches(a, a) == HasRoute(a)
    ensures Matches(a, b) ==> HasRoute(a) && HasRoute(b)
  {
  }
}
