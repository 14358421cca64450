/** The model-name lists of controller/channel_upstream_update.go: ordered, trimmed, without blanks or
    repeats, combined by merging, subtracting and intersecting. */
module ModelNames {
  import opened Seqs
  import opened Text

  /** A trimmed name that is not blank. */
  predicate Name(x: string) {
    x != "" && Trimmed(x)
  }

  predicate Normalized(s: seq<string>) {
    NoRepeats(s) && forall x <- s :: Name(x)
  }

  function Elements(s: seq<string>): set<string> {
    set x | x in s
  }

  /** The names a raw list stands for. */
  function Names(s: seq<string>): set<string> {
    set x | x in s && TrimSpace(x) != "" :: TrimSpace(x)
  }

  /** normalizeModelNames: trims, drops blanks, and keeps the first of equal names. */
  function Normalize(models: seq<string>): (r: seq<string>)
    ensures Normalized(r)
    ensures Elements(r) == Names(models)
  {
    if models == [] then [] else
      var init := Normalize(models[..|models| - 1]);
      var last := models[|models| - 1];
      NamesOfLast(models);
      if TrimSpace(last) == "" || TrimSpace(last) in init then init else init + [TrimSpace(last)]
  }

  lemma NamesOfLast(models: seq<string>)
    requires models != []
    ensures var last := TrimSpace(models[|models| - 1]);
            Names(models) == Names(models[..|models| - 1]) + (if last == "" then {} else {last})
  {
    hide TrimSpace;
    assert models == models[..|models| - 1] + [models[|models| - 1]];
  }

  lemma {:induction false} NormalizeFixed(s: seq<string>)
    requires Normalized(s)
    ensures Normalize(s) == s
  {
    hide TrimSpace, Trimmed;
    if s != [] {
      var init, last := s[..|s| - 1], s[|s| - 1];
      assert last in s && forall x <- init :: x in s;
      NormalizeFixed(init);
      assert last !in init;
      assert init + [last] == s;
    }
  }

  /** lo.Filter */
  function Filter(s: seq<string>, keep: string -> bool): (r: seq<string>)
    ensures forall x :: x in r <==> x in s && keep(x)
    ensures NoRepeats(s) ==> NoRepeats(r)
  {
    if s == [] then [] else
      var init, last := s[..|s| - 1], s[|s| - 1];
      var rest := Filter(init, keep);
      InLast(s);
      InLast(rest + [last]);
      if keep(last) then rest + [last] else rest
  }

  lemma InLast(s: seq<string>)
    requires s != []
    ensures forall x :: x in s <==> x in s[..|s| - 1] || x == s[|s| - 1]
    ensures NoRepeats(s) <==> NoRepeats(s[..|s| - 1]) && s[|s| - 1] !in s[..|s| - 1]
  {
    assert s == s[..|s| - 1] + [s[|s| - 1]];
  }

  lemma {:induction false} FilterLength(s: seq<string>, keep: string -> bool)
    ensures |Filter(s, keep)| <= |s|
    ensures |Filter(s, keep)| == |s| ==> Filter(s, keep) == s
  {
    if s != [] {
      FilterLength(s[..|s| - 1], keep);
    }
  }

  lemma {:induction false} FilterAll(s: seq<string>, keep: string -> bool)
    requires forall x <- s :: keep(x)
    ensures Filter(s, keep) == s
  {
    hide Normalized, Names, Normalize;
    if s != [] {
      InLast(s);
      assert keep(s[|s| - 1]);
      FilterAll(s[..|s| - 1], keep);
      assert s[..|s| - 1] + [s[|s| - 1]] == s;
    }
  }

  function In(names: set<string>): string -> bool {
    x => x in names
  }

  function NotIn(names: set<string>): string -> bool {
    x => x !in names
  }

  lemma Appended(s: seq<string>, extra: seq<string>)
    requires Normalized(s) && Normalized(extra) && forall x <- extra :: x !in s
    ensures Normalized(s + extra) && Elements(s + extra) == Elements(s) + Elements(extra)
  {
    hide Name;
    var all := s + extra;
    forall i, j | 0 <= i < j < |all| ensures all[i] != all[j] {
      if i < |s| <= j {
        assert all[j] == extra[j - |s|] && extra[j - |s|] in extra;
      }
    }
    assert forall x :: x in all <==> x in s || x in extra;
  }

  function Merge(base: seq<string>, appended: seq<string>): (r: seq<string>)
    ensures Normalized(r) && Elements(r) == Names(base) + Names(appended)
  {
    var b, a := Normalize(base), Normalize(appended);
    MergedElements(b, a, Names(base));
    b + Filter(a, NotIn(Names(base)))
  }

  lemma MergedElements(b: seq<string>, a: seq<string>, seen: set<string>)
    requires Normalized(a) && Normalized(b) && Elements(b) == seen
    ensures var r := b + Filter(a, NotIn(seen));
            Normalized(r) && Elements(r) == Elements(b) + Elements(a)
  {
    hide Name, Filter;
    var extra := Filter(a, NotIn(seen));
    assert forall x <- extra :: x in a && x !in seen;
    assert forall x <- extra :: x !in Elements(b);
    Appended(b, extra);
  }

  function Subtract(base: seq<string>, removed: seq<string>): (r: seq<string>)
    ensures Normalized(r) && Elements(r) == Names(base) - Names(removed)
  {
    Filter(Normalize(base), NotIn(Names(removed)))
  }

  function Intersect(base: seq<string>, allowed: seq<string>): (r: seq<string>)
    ensures Normalized(r) && Elements(r) == Names(base) * Names(allowed)
  {
    Filter(Normalize(base), In(Names(allowed)))
  }

  /** applySelectedModelChanges: an added name is never removed in the same step. */
  function ApplySelected(origin: seq<string>, add: seq<string>, remove: seq<string>): seq<string> {
    Subtract(Merge(origin, Normalize(add)), Subtract(Normalize(remove), Normalize(add)))
  }

  /** mergeModelNames as the source runs it, over a growing set of names seen. */
  method MergeModelNames(base: seq<string>, appended: seq<string>) returns (merged: seq<string>)
    ensures merged == Merge(base, appended)
  {
    hide Normalize, Normalized, Names, Filter, NoRepeats;
    merged := Normalize(base);
    ghost var known := Names(base);
    var seen := set x | x in merged;
    var extra := Normalize(appended);
    ghost var added: seq<string> := [];
    assert NoRepeats(extra) && seen == known by {
      Normal(base);
      Normal(appended);
    }
    FilterNothing(NotIn(known));
    for i := 0 to |extra|
      invariant added == Filter(extra[..i], NotIn(known))
      invariant merged == Normalize(base) + added
      invariant forall x :: x in seen <==> x in known || x in extra[..i]
    {
      FilterNext(extra, i, NotIn(known));
      if extra[i] !in seen {
        seen := seen + {extra[i]};
        merged := merged + [extra[i]];
        added := added + [extra[i]];
      }
    }
    assert extra[..|extra|] == extra;
  }

  lemma FilterNothing(keep: string -> bool)
    ensures Filter([], keep) == []
  {
  }

  lemma FilterNext(s: seq<string>, i: nat, keep: string -> bool)
    requires i < |s|
    ensures Filter(s[..i + 1], keep) == Filter(s[..i], keep) + (if keep(s[i]) then [s[i]] else [])
    ensures forall x :: x in s[..i + 1] <==> x in s[..i] || x == s[i]
    ensures NoRepeats(s) ==> s[i] !in s[..i]
  {
    assert s[..i + 1][..i] == s[..i];
    InLast(s[..i + 1]);
  }

  lemma Normal(models: seq<string>)
    ensures Normalized(Normalize(models)) && NoRepeats(Normalize(models))
    ensures Names(models) == set x | x in Normalize(models)
  {
  }

  lemma {:induction false} FilterConcat(a: seq<string>, b: seq<string>, keep: string -> bool)
    ensures Filter(a + b, keep) == Filter(a, keep) + Filter(b, keep)
    decreases |b|
  {
    if b == [] {
      assert a + b == a;
    } else {
      var init := b[..|b| - 1];
      assert (a + b)[..|a + b| - 1] == a + init;
      FilterConcat(a, init, keep);
    }
  }

  lemma {:induction false} FilterSame(s: seq<string>, f: string -> bool, g: string -> bool)
    requires forall x <- s :: f(x) == g(x)
    ensures Filter(s, f) == Filter(s, g)
  {
    if s != [] {
      InLast(s);
      FilterSame(s[..|s| - 1], f, g);
    }
  }

  /** Applying a selection keeps the surviving names in their order and appends the new ones in theirs;
      a name selected both ways is added. */
  lemma ApplySelectedShape(origin: seq<string>, add: seq<string>, remove: seq<string>)
    requires Normalized(origin) && Normalized(add) && Normalized(remove)
    ensures ApplySelected(origin, add, remove)
         == Filter(origin, NotIn(Elements(remove) - Elements(add))) + Filter(add, NotIn(Elements(origin)))
    ensures Normalized(ApplySelected(origin, add, remove))
    ensures Elements(ApplySelected(origin, add, remove)) == (Elements(origin) - Elements(remove)) + Elements(add)
  {
    hide Normalize, Names, Name, Filter;
    NormalizeFixed(origin);
    NormalizeFixed(add);
    NormalizeFixed(remove);
    Normal(origin);
    Normal(add);
    Normal(remove);
    assert Names(origin) == Elements(origin) && Names(add) == Elements(add) && Names(remove) == Elements(remove);
    var merged, gone := Merge(origin, add), Subtract(remove, add);
    var extra := Filter(add, NotIn(Names(origin)));
    var keep := NotIn(Elements(remove) - Elements(add));
    assert merged == origin + extra;
    NormalizeFixed(merged);
    NormalizeFixed(gone);
    Normal(gone);
    assert Names(gone) == Elements(remove) - Elements(add);
    FilterConcat(origin, extra, keep);
    FilterAll(extra, keep);
  }

  lemma NoMembers(s: seq<string>)
    ensures s == [] <==> forall x :: x !in s
  {
    assert s != [] ==> s[0] in s;
  }

  /** The list changes exactly when the set of names does. */
  lemma ChangedMeansDifferentSet(origin: seq<string>, add: seq<string>, remove: seq<string>)
    requires Normalized(origin) && Normalized(add) && Normalized(remove)
    ensures ApplySelected(origin, add, remove) == origin <==>
            Elements(ApplySelected(origin, add, remove)) == Elements(origin)
  {
    hide Normalize, Names, Name, Filter, ApplySelected;
    ApplySelectedShape(origin, add, remove);
    var keep := NotIn(Elements(remove) - Elements(add));
    var extra := Filter(add, NotIn(Elements(origin)));
    if Elements(ApplySelected(origin, add, remove)) == Elements(origin) {
      forall x <- origin ensures keep(x) {
        assert x in Elements(origin);
      }
      FilterAll(origin, keep);
      assert forall x <- add :: x in Elements(origin);
      NoMembers(extra);
    }
  }
}
