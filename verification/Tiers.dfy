/** Tiered token prices: the printed ranges and the band lookup of
    controller/affiliate_invitee_discount.go against the tier that setting/ratio_setting bills. */
module Tiers {
  import opened Options

  datatype Boundary = Lt | Lte

  /** A tier ends at `upTo`, or never when that is 0. */
  datatype Tier<P> = Tier(upTo: int, prices: P)

  /** What ValidateRequestTierPricing demands of the bounds: positive and increasing, 0 only last. */
  predicate Validated<P>(tiers: seq<Tier<P>>) {
    && (forall i :: 0 <= i < |tiers| ==> if tiers[i].upTo == 0 then i == |tiers| - 1 else tiers[i].upTo > 0)
    && (forall i, j :: 0 <= i < j < |tiers| && tiers[j].upTo != 0 ==> tiers[i].upTo < tiers[j].upTo)
  }

  // ---------- Printed ranges ----------

  /** A printed range: from `lo` (left out when `open`) to `hi` (left out under Lt), or with no end. */
  datatype Range = Range(lo: int, open: bool, hi: Option<int>, closed: bool) {
    predicate Contains(n: int) {
      && (if open then n > lo else n >= lo)
      && (hi.Some? ==> if closed then n <= hi.value else n < hi.value)
    }
  }

  /** distributorModelDiscountTierRangeLabel, as the interval it prints. */
  function RangeLabel(previous: int, upTo: int, boundary: Boundary, first: bool): Range {
    var lte := boundary == Lte;
    if upTo == 0 then
      if first || previous <= 0 then Range(0, false, None, false)
      else if lte then Range(previous, true, None, false)
      else Range(previous, false, None, false)
    else if first || previous <= 0 then Range(0, false, Some(upTo), lte)
    else if lte then Range(previous, true, Some(upTo), true)
    else Range(previous, false, Some(upTo), false)
  }

  /** The bound a tier starts from: the last positive bound before it. */
  function Previous<P>(tiers: seq<Tier<P>>, i: nat): int
    requires i <= |tiers|
  {
    if i == 0 then 0 else if tiers[i - 1].upTo > 0 then tiers[i - 1].upTo else Previous(tiers, i - 1)
  }

  function RangeAt<P>(tiers: seq<Tier<P>>, boundary: Boundary, i: nat): Range
    requires i < |tiers|
  {
    RangeLabel(Previous(tiers, i), tiers[i].upTo, boundary, i == 0)
  }

  /** The price-list loop. Each line is a tier's range with its own prices and those the reference rule
      has where that tier begins. */
  method PriceLines<P>(tiers: seq<Tier<P>>, boundary: Boundary,
      reference: seq<Tier<P>>)
    returns (lines: seq<(Range, P, Option<P>)>)
    ensures |lines| == |tiers|
    ensures forall i :: 0 <= i < |tiers| ==>
              lines[i] == (RangeAt(tiers, boundary, i), tiers[i].prices, PricesAtBand(reference, Previous(tiers, i)))
  {
    hide PricesAtBand, RangeLabel;
    lines := [];
    var previous := 0;
    for i := 0 to |tiers|
      invariant |lines| == i && previous == Previous(tiers, i)
      invariant forall k :: 0 <= k < i ==>
                  lines[k] ==
                  (RangeAt(tiers, boundary, k), tiers[k].prices, PricesAtBand(reference, Previous(tiers, k)))
    {
      var tier := tiers[i];
      var band := FindAtBand(reference, previous);
      lines := lines + [(RangeLabel(previous, tier.upTo, boundary, i == 0), tier.prices, band)];
      if tier.upTo > 0 {
        previous := tier.upTo;
      }
    }
  }

  // ---------- Lookups ----------

  predicate Hits<P>(tier: Tier<P>, boundary: Boundary, n: int) {
    tier.upTo == 0 || (if boundary == Lte then n <= tier.upTo else n < tier.upTo)
  }

  /** FindRequestTierBandIndex: the tier that bills `n` tokens, or -1 when there is none. */
  function BillingTier<P>(tiers: seq<Tier<P>>, boundary: Boundary, n: int): int {
    FirstHit(tiers, boundary, n, 0)
  }

  function FirstHit<P>(tiers: seq<Tier<P>>, boundary: Boundary, n: int, i: nat): (k: int)
    requires i <= |tiers|
    ensures -1 <= k < |tiers|
    decreases |tiers| - i
  {
    if i == |tiers| then |tiers| - 1 else if Hits(tiers[i], boundary, n) then i else FirstHit(tiers, boundary, n, i + 1)
  }

  lemma {:induction false} FirstHitExactly<P>(tiers: seq<Tier<P>>, boundary: Boundary, n: int, i: nat)
    requires i <= |tiers|
    ensures var k := FirstHit(tiers, boundary, n, i);
            (i <= k < |tiers| && Hits(tiers[k], boundary, n) && forall j :: i <= j < k ==> !Hits(tiers[j], boundary, n))
            || (k == |tiers| - 1 && forall j :: i <= j < |tiers| ==> !Hits(tiers[j], boundary, n))
    decreases |tiers| - i
  {
    if i < |tiers| && !Hits(tiers[i], boundary, n) {
      FirstHitExactly(tiers, boundary, n, i + 1);
    }
  }

  /** The tier that distributorModelDiscountTierPricesAtBand stops at: always by strict comparison. */
  function BandAt<P>(tiers: seq<Tier<P>>, from: int): Option<nat> {
    var k := FirstHit(tiers, Lt, from, 0);
    if k >= 0 && Hits(tiers[k], Lt, from) then Some(k) else None
  }

  /** Its result, with None for the zero prices it falls back to. */
  function PricesAtBand<P>(tiers: seq<Tier<P>>, from: int): Option<P> {
    var k := BandAt(tiers, from);
    if k.Some? && k.value < |tiers| then Some(tiers[k.value].prices) else None
  }

  /** The prices of the first tier that is open or whose bound lies above the start of the band, if there is one. */
  lemma BandPricesExactly<P>(tiers: seq<Tier<P>>, from: int, k: nat)
    ensures k < |tiers| && (tiers[k].upTo == 0 || from < tiers[k].upTo)
            && (forall j :: 0 <= j < k ==> tiers[j].upTo != 0 && tiers[j].upTo <= from)
            ==> PricesAtBand(tiers, from) == Some(tiers[k].prices)
    ensures (forall j :: 0 <= j < |tiers| ==> tiers[j].upTo != 0 && tiers[j].upTo <= from) ==>
              PricesAtBand(tiers, from) == None
  {
    FirstHitExactly(tiers, Lt, from, 0);
  }

  method FindAtBand<P>(tiers: seq<Tier<P>>, from: int) returns (prices: Option<P>)
    ensures prices == PricesAtBand(tiers, from)
  {
    FirstHitExactly(tiers, Lt, from, 0);
    for i := 0 to |tiers|
      invariant forall j :: 0 <= j < i ==> !Hits(tiers[j], Lt, from)
    {
      if tiers[i].upTo == 0 || from < tiers[i].upTo {
        return Some(tiers[i].prices);
      }
    }
    return None;
  }

  /** `n` lies below the last bound, or the last tier has none. */
  predicate Covered<P>(tiers: seq<Tier<P>>, boundary: Boundary, n: int) {
    tiers != [] && Hits(tiers[|tiers| - 1], boundary, n)
  }

  lemma {:induction false} PreviousIsLast<P>(tiers: seq<Tier<P>>, i: nat)
    requires Validated(tiers) && i < |tiers|
    ensures Previous(tiers, i) == if i == 0 then 0 else tiers[i - 1].upTo
    ensures i > 0 ==> tiers[i - 1].upTo > 0
  {
  }

  /** The printed ranges tell the truth: a token count lies in the range of tier i exactly when tier i is
      the one that bills it, and some tier bills it at all. */
  lemma PrintedRangesAreBilledTiers<P>(tiers: seq<Tier<P>>, boundary: Boundary, n: int, i: nat)
    requires Validated(tiers) && n >= 0 && i < |tiers|
    ensures RangeAt(tiers, boundary, i).Contains(n) <==>
            BillingTier(tiers, boundary, n) == i && Covered(tiers, boundary, n)
  {
    PreviousIsLast(tiers, i);
    FirstHitExactly(tiers, boundary, n, 0);
    var k := BillingTier(tiers, boundary, n);
    assert forall j :: 0 <= j < i && tiers[i].upTo != 0 ==> tiers[j].upTo < tiers[i].upTo;
    assert i > 0 ==>
             Hits(tiers[i - 1], boundary, n) ==
             (if boundary == Lte then n <= tiers[i - 1].upTo else n < tiers[i - 1].upTo);
  }

  /** Some printed range holds `n`. */
  predicate Printed<P>(tiers: seq<Tier<P>>, boundary: Boundary, n: int) {
    exists i :: 0 <= i < |tiers| && RangeAt(tiers, boundary, i).Contains(n)
  }

  lemma RangesAreDisjoint<P>(tiers: seq<Tier<P>>, boundary: Boundary, n: int, i: nat, j: nat)
    requires Validated(tiers) && n >= 0 && i < |tiers| && j < |tiers|
    requires RangeAt(tiers, boundary, i).Contains(n) && RangeAt(tiers, boundary, j).Contains(n)
    ensures i == j
  {
    PrintedRangesAreBilledTiers(tiers, boundary, n, i);
    PrintedRangesAreBilledTiers(tiers, boundary, n, j);
  }

  /** The ranges cover exactly the counts that some tier bills: all of them when the last tier has no
      end, and not all of them otherwise. */
  lemma RangesPartition<P>(tiers: seq<Tier<P>>, boundary: Boundary)
    requires Validated(tiers) && tiers != []
    ensures forall n :: n >= 0 ==> (Printed(tiers, boundary, n) <==> Covered(tiers, boundary, n))
    ensures (forall n :: n >= 0 ==> Printed(tiers, boundary, n)) <==> tiers[|tiers| - 1].upTo == 0
  {
    hide FirstHit, RangeLabel, Previous;
    forall n, i: nat | n >= 0 && i < |tiers|
      ensures RangeAt(tiers, boundary, i).Contains(n) <==>
              BillingTier(tiers, boundary, n) == i && Covered(tiers, boundary, n)
    {
      PrintedRangesAreBilledTiers(tiers, boundary, n, i);
    }
    forall n | n >= 0 ensures Printed(tiers, boundary, n) <==> Covered(tiers, boundary, n) {
      FirstHitExactly(tiers, boundary, n, 0);
      if Covered(tiers, boundary, n) {
        assert RangeAt(tiers, boundary, BillingTier(tiers, boundary, n)).Contains(n);
      }
    }
    var last := tiers[|tiers| - 1].upTo;
    assert last != 0 ==> !Covered(tiers, boundary, last + 1);
    assert last != 0 ==> !Printed(tiers, boundary, last + 1);
  }

  /** `n` is where some tier ends. */
  predicate IsBound<P>(tiers: seq<Tier<P>>, n: int) {
    exists i :: 0 <= i < |tiers| && tiers[i].upTo != 0 && tiers[i].upTo == n
  }

  /** The band lookup finds the tier that bills `n` exactly when `n` is covered and, if bounds belong to
      the tier below, is not itself a bound. */
  lemma BandIsBilledTier<P>(tiers: seq<Tier<P>>, boundary: Boundary, n: int)
    requires Validated(tiers) && n >= 0
    ensures BandAt(tiers, n) == Some(BillingTier(tiers, boundary, n)) && tiers != []
       <==> Covered(tiers, boundary, n) && (boundary == Lt || !IsBound(tiers, n))
  {
    FirstHitExactly(tiers, Lt, n, 0);
    FirstHitExactly(tiers, boundary, n, 0);
    forall i | 0 <= i < |tiers|
      ensures tiers[i].upTo != n || n == 0 ==> Hits(tiers[i], Lt, n) == Hits(tiers[i], boundary, n)
    {
    }
    if boundary == Lte && Covered(tiers, boundary, n) {
      if i :| 0 <= i < |tiers| && tiers[i].upTo != 0 && tiers[i].upTo == n {
        assert Hits(tiers[i], Lte, n) && !Hits(tiers[i], Lt, n);
        assert forall j :: 0 <= j < i ==> !Hits(tiers[j], Lte, n);
        assert BillingTier(tiers, boundary, n) == i;
      }
    }
  }

  /** The first token count of a printed band. */
  function FirstToken<P>(tiers: seq<Tier<P>>, boundary: Boundary, i: nat): int
    requires i < |tiers|
  {
    if i == 0 || boundary == Lt then Previous(tiers, i) else Previous(tiers, i) + 1
  }

  /** The reference prices printed on a band are those of the reference tier that bills the first token
      count of the band, when both rules treat their bounds alike. */
  lemma BandQuotesReference<P>(tiers: seq<Tier<P>>, reference: seq<Tier<P>>, boundary: Boundary, i: nat)
    requires Validated(tiers) && Validated(reference) && i < |tiers|
    ensures var n := FirstToken(tiers, boundary, i);
            Covered(reference, boundary, n) ==>
              BandAt(reference, Previous(tiers, i)) == Some(BillingTier(reference, boundary, n))
  {
    var from, n := Previous(tiers, i), FirstToken(tiers, boundary, i);
    PreviousIsLast(tiers, i);
    FirstHitExactly(reference, Lt, from, 0);
    FirstHitExactly(reference, boundary, n, 0);
    forall k | 0 <= k < |reference| ensures Hits(reference[k], Lt, from) == Hits(reference[k], boundary, n) {
    }
  }

  /** In particular, a rule that is its own reference quotes each tier's own prices. */
  lemma {:induction false} BandFindsOwnTier<P>(tiers: seq<Tier<P>>, i: nat)
    requires Validated(tiers) && i < |tiers|
    ensures BandAt(tiers, Previous(tiers, i)) == Some(i)
    ensures PricesAtBand(tiers, Previous(tiers, i)) == Some(tiers[i].prices)
  {
    hide BandAt, PricesAtBand, Previous, Validated;
    OwnBand(tiers, i);
    BandAtFirst(tiers, Previous(tiers, i), i);
  }

  lemma {:induction false} OwnBand<P>(tiers: seq<Tier<P>>, i: nat)
    requires Validated(tiers) && i < |tiers|
    ensures tiers[i].upTo == 0 || Previous(tiers, i) < tiers[i].upTo
    ensures forall j :: 0 <= j < i ==> 0 < tiers[j].upTo <= Previous(tiers, i)
  {
    PreviousIsLast(tiers, i);
    hide Previous;
    forall j | 0 <= j < i ensures 0 < tiers[j].upTo <= Previous(tiers, i) {
      assert j == i - 1 || tiers[j].upTo < tiers[i - 1].upTo;
    }
  }

  lemma {:induction false} BandAtFirst<P>(tiers: seq<Tier<P>>, from: int, k: nat)
    requires k < |tiers| && (tiers[k].upTo == 0 || from < tiers[k].upTo)
    requires forall j :: 0 <= j < k ==> 0 < tiers[j].upTo <= from
    ensures BandAt(tiers, from) == Some(k) && PricesAtBand(tiers, from) == Some(tiers[k].prices)
  {
    FirstHitExactly(tiers, Lt, from, 0);
    hide FirstHit;
    assert forall j :: 0 <= j < k ==> !Hits(tiers[j], Lt, from);
  }

  /** Whatever the two rules' boundary kinds, a band quotes the reference tier that bills its first token count
      exactly when the kinds agree or that count is not one of the reference's bounds. */
  lemma BandQuotesExactly<P>(tiers: seq<Tier<P>>, boundary: Boundary, reference: seq<Tier<P>>, kind: Boundary, i: nat)
    requires Validated(tiers) && Validated(reference) && i < |tiers|
    requires Covered(reference, kind, FirstToken(tiers, boundary, i))
    ensures var n := FirstToken(tiers, boundary, i);
            BandAt(reference, Previous(tiers, i)) == Some(BillingTier(reference, kind, n)) <==>
              boundary == kind || !IsBound(reference, n)
  {
    var from, n := Previous(tiers, i), FirstToken(tiers, boundary, i);
    PreviousIsLast(tiers, i);
    FirstHitExactly(reference, Lt, from, 0);
    FirstHitExactly(reference, kind, n, 0);
    if boundary == kind {
      BandQuotesReference(tiers, reference, boundary, i);
    } else {
      forall k | 0 <= k < |reference|
        ensures Hits(reference[k], Lt, from) != Hits(reference[k], kind, n) <==>
                reference[k].upTo != 0 && reference[k].upTo == n
      {
      }
      if k :| 0 <= k < |reference| && reference[k].upTo != 0 && reference[k].upTo == n {
        OneTierDiffers(reference, from, kind, n, k);
      }
    }
  }

  lemma OneTierDiffers<P>(tiers: seq<Tier<P>>, from: int, kind: Boundary, n: int, k: nat)
    requires Validated(tiers) && k < |tiers| && tiers[k].upTo != 0
             && Hits(tiers[k], Lt, from) != Hits(tiers[k], kind, n)
    requires tiers[k].upTo == n && Covered(tiers, kind, n) && from == (if kind == Lte then n else n - 1)
    ensures BandAt(tiers, from) != Some(BillingTier(tiers, kind, n))
  {
    FirstHitExactly(tiers, Lt, from, 0);
    FirstHitExactly(tiers, kind, n, 0);
    assert forall j :: 0 <= j < k ==> tiers[j].upTo < tiers[k].upTo && tiers[j].upTo != 0;
    if kind == Lte {
      assert FirstHit(tiers, kind, n, 0) == k;
    } else {
      assert FirstHit(tiers, Lt, from, 0) == k;
    }
  }

  /** With different boundary kinds the quoted tier can be another one. */
  lemma MixedBoundariesMisquote()
    ensures var tiers, reference := [Tier(10, 'a'), Tier(0, 'b')], [Tier(10, 'c'), Tier(0, 'd')];
            && Validated(tiers) && Validated(reference)
            && FirstToken(tiers, Lt, 1) == 10
            && BillingTier(reference, Lte, 10) == 0
            && PricesAtBand(reference, Previous(tiers, 1)) == Some('d')
  {
    var reference := [Tier(10, 'c'), Tier(0, 'd')];
    assert FirstHit(reference, Lt, 10, 0) == FirstHit(reference, Lt, 10, 1) == 1;
  }
}
