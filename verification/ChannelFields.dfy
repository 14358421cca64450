/** What one imported item does to the channel table, field by field, and which channel it is matched with
    (controller/channel_export_import.go). */
module ChannelFields {
  import opened Options
  import opened Text
  import opened ChannelImport

  // ---------- Group lists ----------

  /** The trimmed names of a list that are not blank, in order. */
  ghost function TrimmedNames(names: seq<string>): seq<string> {
    if names == [] then []
    else (if TrimSpace(names[0]) == "" then [] else [TrimSpace(names[0])]) + TrimmedNames(names[1..])
  }

  lemma {:induction false} NonBlankIsTrimmed(names: seq<string>)
    ensures NonBlank(names) == TrimmedNames(names)
  {
    hide TrimSpace;
    if names != [] {
      var init, last := names[..|names| - 1], names[|names| - 1];
      NonBlankIsTrimmed(init);
      TrimmedLast(init, last);
      assert names == init + [last];
    }
  }

  lemma {:induction false} TrimmedLast(names: seq<string>, last: string)
    ensures TrimmedNames(names + [last]) ==
            TrimmedNames(names) + (if TrimSpace(last) == "" then [] else [TrimSpace(last)])
  {
    hide TrimSpace;
    if names == [] {
      assert (names + [last])[1..] == [];
    } else {
      assert (names + [last])[1..] == names[1..] + [last];
      TrimmedLast(names[1..], last);
    }
  }

  // ---------- The fields of a written channel ----------

  /** A field that the item brings is stored as it is, any other keeps its value. */
  ghost predicate KeptOr<T(!new)>(brought: Option<T>, before: T, after: T) {
    if brought.Some? then after == brought.value else after == before
  }

  /** A blank key of a site-building channel is replaced by the key of the import, if there is one. */
  ghost predicate StoresKey(setup: Setup, brought: string, kind: int, stored: string) {
    if TrimSpace(brought) == "" && setup.siteKey != "" && kind == 60 then stored == TrimSpace(setup.siteKey)
    else stored == brought
  }

  /** An updated channel holds the item's fields and keeps its own where the item has none; every other channel
      stays. */
  lemma UpdatedFields(setup: Setup, table: seq<Channel>, item: Item)
    requires ImportOne(setup, table, item).1.Updated?
    ensures var i, table' := ImportOne(setup, table, item).1.index, ImportOne(setup, table, item).0;
            && i < |table| == |table'|
            && (forall j :: 0 <= j < |table| && j != i ==> table'[j] == table[j])
            && var before, after := table[i], table'[i];
               && item.name.Some? && after.name == TrimSpace(item.name.value) != ""
               && (item.syncKey.None? || TrimSpace(item.syncKey.value) == "" ==> after.syncKey == before.syncKey)
               && (item.syncKey.Some? && TrimSpace(item.syncKey.value) != "" ==>
                     after.syncKey == TrimSpace(item.syncKey.value))
               && KeptOr(item.kind, before.kind, after.kind)
               && (item.key.None? ==> after.key == before.key)
               && (item.key.Some? ==> StoresKey(setup, item.key.value, after.kind, after.key))
               && (item.groups.None? ==> after.group == before.group)
               && (item.groups.Some? ==> after.group == Join(TrimmedNames(item.groups.value), ','))
               && KeptOr(item.baseURL, before.baseURL, after.baseURL)
               && KeptOr(item.routeSlug, before.routeSlug, after.routeSlug)
               && KeptOr(item.info, before.info, after.info)
               && forall column: Column ::
                    if column in item.columns
                    then column in after.columns && after.columns[column] == item.columns[column]
                    else (column in after.columns <==> column in before.columns)
                         && (column in before.columns ==> after.columns[column] == before.columns[column])
  {
    hide TrimSpace, Find, KeyTakenByOther, Insertable, NewRow, Join;
    if item.groups.Some? {
      NonBlankIsTrimmed(item.groups.value);
    }
  }

  /** An inserted channel stands after the others and holds the item's fields, and the defaults where the item has none:
      enabled, in the default group, with a drawn key and a default slug. */
  lemma AddedFields(setup: Setup, table: seq<Channel>, item: Item)
    requires ImportOne(setup, table, item).1.Added?
    ensures var table' := ImportOne(setup, table, item).0;
            && |table'| == |table| + 1 && table'[..|table|] == table
            && var ch, slug := table'[|table|], item.routeSlug.GetOr("");
               var group := Join(TrimmedNames(item.groups.GetOr(["default"])), ',');
               && item.name.Some? && ch.name == TrimSpace(item.name.value) != ""
               && ch.syncKey == (if item.syncKey.Some? && TrimSpace(item.syncKey.value) != ""
                                 then TrimSpace(item.syncKey.value) else item.drawn)
               && KeptOr(item.kind, 0, ch.kind)
               && (item.key.None? ==> ch.key == "")
               && (item.key.Some? ==> StoresKey(setup, item.key.value, ch.kind, ch.key))
               && ch.group == (if group == "" then "default" else group)
               && KeptOr(item.baseURL, "", ch.baseURL)
               && ch.routeSlug == (if TrimSpace(slug) == "" then setup.defaultSlug(|table|) else TrimSpace(slug))
               && KeptOr(item.info, Info("", 0, "", "", "", ""), ch.info)
               && forall column: Column ::
                    if column in item.columns
                    then column in ch.columns && ch.columns[column] == item.columns[column]
                    else (column in ch.columns <==> column == Status)
                         && (column == Status ==> ch.columns[column] == Whole(1))
  {
    hide TrimSpace, Find, KeyTakenByOther, Insertable, ApplyRow, Join;
    if item.groups.Some? {
      NonBlankIsTrimmed(item.groups.value);
    }
    DefaultGroup();
  }

  lemma DefaultGroup()
    ensures Join(TrimmedNames(["default"]), ',') == "default"
  {
    assert TrimSpace("default") == "default";
  }

  // ---------- Which channel an item is matched with ----------

  ghost predicate FirstWith(table: seq<Channel>, i: nat, p: Channel -> bool) {
    i < |table| && p(table[i]) && forall j :: 0 <= j < i ==> !p(table[j])
  }

  /** A key of 1 to 64 printable characters other than the space. */
  lemma SyncKeysExactly(s: string)
    ensures ValidSyncKey(s) <==> 1 <= |s| <= 64 && forall i :: 0 <= i < |s| ==> '\U{0021}' <= s[i] <= '\U{007E}'
  {
    assert forall i :: 0 <= i < |s| ==> s[i] in s;
  }

  ghost predicate Digit(c: char) {
    '\U{0030}' <= c <= '\U{0039}'
  }

  ghost predicate Alphanumeric(c: char) {
    Digit(c) || '\U{0041}' <= c <= '\U{005A}' || '\U{0061}' <= c <= '\U{007A}'
  }

  /** Two to 32 letters and digits, but not "c" followed by digits only. */
  lemma SlugsExactly(s: string)
    ensures ValidSlug(s) <==>
            && 2 <= |s| <= 32 && (forall i :: 0 <= i < |s| ==> Alphanumeric(s[i]))
            && (s[0] != 'c' || exists i :: 1 <= i < |s| && !Digit(s[i]))
  {
    if 2 <= |s| {
      assert forall i :: 0 <= i < |s| ==> s[i] in s;
      assert forall i :: 1 <= i < |s| ==> s[1..][i - 1] == s[i] && s[i] in s[1..];
    }
  }

  /** The key decides where some channel holds it. Otherwise an ordinary item goes by its name, unless the channel of
      that name has another key. */
  lemma OrdinaryMatch(table: seq<Channel>, item: Item, i: nat)
    requires !SiteBuilder(item)
    ensures var key, r := KeyOf(item), Find(table, item);
            var known := key != "" && exists j :: 0 <= j < |table| && table[j].syncKey == key;
            && (r.Invalid? <==> key != "" && !ValidSyncKey(key))
            && (!r.Invalid? && known && FirstWith(table, i, (ch: Channel) => ch.syncKey == key) ==> r == Found(i))
            && (!r.Invalid? && !known && FirstWith(table, i, (ch: Channel) => ch.name == NameOf(item)) ==>
                  r == if key != "" && table[i].syncKey != "" then Missing else Found(i))
            && (!r.Invalid? && !known && (forall j :: 0 <= j < |table| ==> table[j].name != NameOf(item)) ==>
                  r == Missing)
  {
    hide TrimSpace, ValidSyncKey, SiteBuilder, KeyOf, NameOf;
  }

  /** An item of a site builder says so by its type or by its source. */
  lemma SiteBuilderExactly(item: Item)
    ensures SiteBuilder(item) <==>
            item.kind == Some(60) || (item.info.Some? && TrimSpace(item.info.value.source) == "tokenfactory_open")
  {
    hide TrimSpace;
  }

  /** Base URLs that differ tell channels apart; the routes decide if both sides have one, else the upstream ids, else
      the aliases together with their channel numbers. */
  lemma MatchesExactly(a: Identity, b: Identity)
    ensures var apart := a.baseURL != "" && b.baseURL != "" && a.baseURL != b.baseURL;
            var routes, ids := a.route != "" && b.route != "", a.upstreamID > 0 && b.upstreamID > 0;
            Matches(a, b) <==>
              && !apart && (routes ==> a.route == b.route) && (!routes && ids ==> a.upstreamID == b.upstreamID)
              && (!routes && !ids ==> a.alias == b.alias != "" && a.channelNo == b.channelNo != "")
  {
  }

  /** The base URL counts without the slashes at its end. */
  lemma {:induction false} WithoutSlashes(s: string)
    ensures TrimSlashes(s) <= s && (TrimSlashes(s) == "" || TrimSlashes(s)[|TrimSlashes(s)| - 1] != '/')
    ensures forall i :: |TrimSlashes(s)| <= i < |s| ==> s[i] == '/'
  {
    if s != "" && s[|s| - 1] == '/' {
      WithoutSlashes(s[..|s| - 1]);
    }
  }

  /** What an item or a channel says of its upstream. */
  ghost predicate Names(a: Identity, baseURL: string, info: Info) {
    && a.baseURL == TrimSlashes(TrimSpace(baseURL)) && a.upstreamID == info.upstreamID
    && a.route == TrimSpace(info.route) && a.alias == TrimSpace(info.alias)
    && a.channelNo == TrimSpace(info.channelNo)
  }

  /** A new channel is refused exactly when its key or its slug is in use, or it asks for a slug that is none. */
  lemma InsertableExactly(setup: Setup, table: seq<Channel>, item: Item)
    ensures var key := if KeyOf(item) == "" then item.drawn else KeyOf(item);
            var asked := if item.routeSlug.Some? then TrimSpace(item.routeSlug.value) else "";
            var slug := if asked == "" then setup.defaultSlug(|table|) else asked;
            Insertable(setup, table, item) <==>
              && (forall i :: 0 <= i < |table| ==> table[i].syncKey != key && table[i].routeSlug != slug)
              && (asked == "" || ValidSlug(asked))
  {
    hide TrimSpace, ValidSlug, KeyOf, NameOf, GroupText, ApiKey;
    BlankIsTrimmed();
  }

  lemma BlankIsTrimmed()
    ensures TrimSpace("") == ""
  {
  }

  // ---------- The totals ----------

  ghost function Places(outcomes: seq<Outcome>, p: Outcome -> bool): set<int> {
    set n | 0 <= n < |outcomes| && p(outcomes[n])
  }

  lemma PlacesGrow(outcomes: seq<Outcome>, last: Outcome, p: Outcome -> bool)
    ensures |Places(outcomes + [last], p)| == |Places(outcomes, p)| + (if p(last) then 1 else 0)
  {
    var all := outcomes + [last];
    assert forall n :: 0 <= n < |outcomes| ==> all[n] == outcomes[n];
    assert Places(all, p) == Places(outcomes, p) + (if p(last) then {|outcomes|} else {});
  }

  /** The totals count the items that were added and updated completely; all others count as failed. */
  lemma {:induction false} TotalsExactly(outcomes: seq<Outcome>)
    ensures var t := Tally(outcomes);
            && t.added == |Places(outcomes, (o: Outcome) => o.Added? && o.complete)|
            && t.updated == |Places(outcomes, (o: Outcome) => o.Updated? && o.complete)|
            && t.added + t.updated + t.failed == |outcomes|
  {
    if outcomes != [] {
      var init, last := outcomes[..|outcomes| - 1], outcomes[|outcomes| - 1];
      TotalsExactly(init);
      PlacesGrow(init, last, (o: Outcome) => o.Added? && o.complete);
      PlacesGrow(init, last, (o: Outcome) => o.Updated? && o.complete);
      assert outcomes == init + [last];
    } else {
      assert forall p: Outcome -> bool :: Places(outcomes, p) == {};
    }
  }

  // ---------- Which channel a site-builder item is matched with ----------

  predicate KeyUnknown(table: seq<Channel>, item: Item) {
    KeyOf(item) == "" || (ValidSyncKey(KeyOf(item)) && forall j :: 0 <= j < |table| ==> table[j].syncKey != KeyOf(item))
  }

  /** A site-building channel of the item's name. */
  ghost predicate Namesake(item: Item, ch: Channel) {
    ch.name == NameOf(item) && ch.kind == 60
  }

  /** A site-builder item that names its upstream, and whose key no channel holds, goes to the first site-building
      channel of its name with a matching upstream. */
  lemma RoutedMatch(table: seq<Channel>, item: Item, own: Identity, i: nat)
    requires SiteBuilder(item) && Names(own, item.baseURL.GetOr(""), item.info.GetOr(Info("", 0, "", "", "", "")))
    requires KeyUnknown(table, item)
    requires own.route != "" || own.upstreamID > 0 || (own.alias != "" && own.channelNo != "")
    ensures var fits := (ch: Channel) => Namesake(item, ch) && Matches(own, IdentityOf(ch.baseURL, ch.info));
            && (FirstWith(table, i, fits) ==> Find(table, item) == Found(i))
            && ((forall j :: 0 <= j < |table| ==> !fits(table[j])) ==> Find(table, item) == Missing)
  {
    hide TrimSpace, ValidSyncKey, SiteBuilder, KeyOf, NameOf, Matches, TrimSlashes;
    assert own == ItemIdentity(item);
  }

  lemma IdentityNames(ch: Channel)
    ensures Names(IdentityOf(ch.baseURL, ch.info), ch.baseURL, ch.info)
  {
    hide TrimSpace, TrimSlashes;
  }

  /** One that names no upstream goes to the only site-building channel of its name, if there is just one. */
  lemma UnroutedMatch(table: seq<Channel>, item: Item, own: Identity, i: nat)
    requires SiteBuilder(item) && Names(own, item.baseURL.GetOr(""), item.info.GetOr(Info("", 0, "", "", "", "")))
    requires KeyUnknown(table, item)
    requires own.route == "" && own.upstreamID <= 0 && (own.alias == "" || own.channelNo == "")
    ensures Find(table, item) == Found(i) <==>
            i < |table| && forall j :: 0 <= j < |table| ==> (Namesake(item, table[j]) <==> j == i)
    ensures Find(table, item).Missing? || Find(table, item).Found?
  {
    hide TrimSpace, ValidSyncKey, SiteBuilder, KeyOf, NameOf, Matches, TrimSlashes, Only;
    assert own == ItemIdentity(item);
    OnlyExactly(table, Candidate(NameOf(item)), i);
    assert forall j :: 0 <= j < |table| ==> Candidate(NameOf(item))(table[j]) == Namesake(item, table[j]);
  }

  lemma OnlyExactly(table: seq<Channel>, p: Channel -> bool, i: nat)
    ensures Only(table, p) == Some(i) <==> i < |table| && forall j :: 0 <= j < |table| ==> (p(table[j]) <==> j == i)
  {
    var first := First(table, p);
    if first.Some? {
      var k, rest := first.value, table[first.value + 1..];
      var second := First(rest, p);
      if second.Some? {
        assert p(table[k]) && p(table[k + 1 + second.value]);
      } else {
        forall j | 0 <= j < |table| ensures p(table[j]) <==> j == k {
          if j > k {
            assert table[j] == rest[j - k - 1];
          }
        }
        assert p(table[k]);
      }
    } else {
      assert i < |table| ==> !p(table[i]);
    }
  }
}
