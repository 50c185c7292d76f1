/**
 * The buyer matcher: keep the active buyers that pass all four filters, in
 * pool order, rank them by conversion rate (best first, ties in pool order)
 * and keep the first five.
 */
module Matching {

  import opened Qualification
  import opened Records

  /** The service-area entry that covers every origin. */
  const Nationwide: string := "Nationwide"

  /** How many buyers receive one lead at most. */
  const MaxMatches: nat := 5

  // ---------------------------------------------------------------------
  // The four filters
  // ---------------------------------------------------------------------

  function LowerChar(c: char): char
  {
    if 'A' <= c <= 'Z' then (c as int + 32) as char else c
  }

  /** Lower-case conversion of ASCII letters. */
  function Lower(s: string): (r: string)
    ensures |r| == |s|
    ensures forall i :: 0 <= i < |s| ==> r[i] == LowerChar(s[i])
    ensures forall i :: 0 <= i < |r| ==> !('A' <= r[i] <= 'Z')
  {
    if s == [] then [] else [LowerChar(s[0])] + Lower(s[1..])
  }

  /** `part` occurs in `text` as a contiguous piece (Python's `part in text`). */
  predicate IsSubstring(part: string, text: string)
  {
    exists k | 0 <= k <= |text| - |part| :: OccursAt(part, text, k)
  }

  predicate OccursAt(part: string, text: string, k: int)
  {
    0 <= k && k + |part| <= |text| && text[k..k + |part|] == part
  }

  predicate ContainsIgnoringCase(text: string, part: string)
  {
    IsSubstring(Lower(part), Lower(text))
  }

  predicate AcceptsTier(b: Buyer, tier: Tier)
  {
    tier in b.acceptsLeadTiers
  }

  /** A nationwide buyer serves every origin; any other buyer serves an origin
      address that mentions one of its areas, ignoring case. */
  predicate ServesOrigin(b: Buyer, originAddress: string)
  {
    Nationwide in b.serviceAreas
    || exists area | area in b.serviceAreas :: ContainsIgnoringCase(originAddress, area)
  }

  /** An absent or zero maximum distance is no cap at all. */
  predicate WithinDistanceCap(b: Buyer, distanceMiles: real)
  {
    b.maxDistance.None? || b.maxDistance.value == 0 || distanceMiles <= b.maxDistance.value as real
  }

  predicate CanAfford(b: Buyer, leadValue: real)
  {
    b.creditBalance >= leadValue
  }

  predicate PassesFilters(lead: Lead, b: Buyer)
  {
    && AcceptsTier(b, lead.qualityTier)
    && ServesOrigin(b, lead.originAddress)
    && WithinDistanceCap(b, lead.distanceMiles)
    && CanAfford(b, lead.leadValue)
  }

  lemma LowerIdempotent(s: string)
    ensures Lower(Lower(s)) == Lower(s)
  {
  }

  /** Area matching ignores case: writing the origin address or a non-nationwide
      buyer's areas in another case changes nothing. */
  lemma ServesOriginIgnoresCase(b: Buyer, originAddress: string)
    ensures ServesOrigin(b, originAddress) <==> ServesOrigin(b, Lower(originAddress))
    ensures Nationwide !in b.serviceAreas ==>
      (ServesOrigin(b, originAddress) <==>
       ServesOrigin(b.(serviceAreas := LowerAll(b.serviceAreas)), originAddress))
  {
    LowerIdempotent(originAddress);
    var lowered := LowerAll(b.serviceAreas);
    forall area | area in b.serviceAreas
      ensures ContainsIgnoringCase(originAddress, area) <==> ContainsIgnoringCase(originAddress, Lower(area))
    {
      LowerIdempotent(area);
    }
    if Nationwide !in b.serviceAreas && Nationwide !in lowered {
      forall area | area in lowered ensures exists a :: a in b.serviceAreas && area == Lower(a) {
        var i :| 0 <= i < |lowered| && lowered[i] == area;
        assert b.serviceAreas[i] in b.serviceAreas;
      }
    }
  }

  /** Each area lower-cased. */
  function LowerAll(areas: seq<string>): (r: seq<string>)
    ensures |r| == |areas|
    ensures forall i :: 0 <= i < |areas| ==> r[i] == Lower(areas[i])
  {
    if areas == [] then [] else [Lower(areas[0])] + LowerAll(areas[1..])
  }

  // ---------------------------------------------------------------------
  // Specification: filter, stable sort, truncate
  // ---------------------------------------------------------------------

  /** The buyer query: the active buyers, in storage order. */
  function ActiveBuyers(all: seq<Buyer>): (active: seq<Buyer>)
    ensures forall b :: b in active <==> b in all && b.active
  {
    if all == [] then []
    else
      var init, b := all[..|all| - 1], all[|all| - 1];
      assert all == init + [b];
      if b.active then ActiveBuyers(init) + [b] else ActiveBuyers(init)
  }

  /** The buyers of `pool` that pass all four filters, in pool order. */
  function Matches(lead: Lead, pool: seq<Buyer>): (m: seq<Buyer>)
    ensures forall b :: b in m <==> b in pool && PassesFilters(lead, b)
  {
    if pool == [] then []
    else
      var init, b := pool[..|pool| - 1], pool[|pool| - 1];
      assert pool == init + [b];
      if PassesFilters(lead, b) then Matches(lead, init) + [b] else Matches(lead, init)
  }

  /** Every buyer the lead could go to, before ranking. */
  function EligibleBuyers(lead: Lead, all: seq<Buyer>): seq<Buyer>
  {
    Matches(lead, ActiveBuyers(all))
  }

  predicate SortedByRate(s: seq<Buyer>)
  {
    forall i, j :: 0 <= i < j < |s| ==> s[i].conversionRate >= s[j].conversionRate
  }

  /** Puts `x` in front of the first buyer whose rate is not higher. */
  function InsertByRate(x: Buyer, s: seq<Buyer>): (r: seq<Buyer>)
    ensures multiset(r) == multiset(s) + multiset{x}
  {
    if s == [] || s[0].conversionRate <= x.conversionRate then
      [x] + s
    else
      assert s == [s[0]] + s[1..];
      [s[0]] + InsertByRate(x, s[1..])
  }

  lemma {:induction false} InsertByRateSorted(x: Buyer, s: seq<Buyer>)
    requires SortedByRate(s)
    ensures SortedByRate(InsertByRate(x, s))
  {
    if s == [] || s[0].conversionRate <= x.conversionRate {
      var r := [x] + s;
      forall i, j | 0 <= i < j < |r| ensures r[i].conversionRate >= r[j].conversionRate {
        if i == 0 {
          assert r[j] == s[j - 1];
          assert s[0].conversionRate >= s[j - 1].conversionRate;
        } else {
          assert r[i] == s[i - 1] && r[j] == s[j - 1];
        }
      }
    } else {
      var rest := InsertByRate(x, s[1..]);
      InsertByRateSorted(x, s[1..]);
      var r := [s[0]] + rest;
      forall i, j | 0 <= i < j < |r| ensures r[i].conversionRate >= r[j].conversionRate {
        if i == 0 {
          assert r[j] in multiset(rest);
          if r[j] != x {
            var k :| 0 <= k < |s[1..]| && s[1..][k] == r[j];
            assert s[k + 1] == r[j];
          }
        } else {
          assert r[i] == rest[i - 1] && r[j] == rest[j - 1];
        }
      }
    }
  }

  /** `matched.sort(key=conversion_rate, reverse=True)`: a stable sort,
      highest conversion rate first. */
  function SortByRate(s: seq<Buyer>): (r: seq<Buyer>)
    ensures multiset(r) == multiset(s)
    ensures SortedByRate(r)
  {
    if s == [] then []
    else
      assert s == [s[0]] + s[1..];
      var sortedRest := SortByRate(s[1..]);
      InsertByRateSorted(s[0], sortedRest);
      InsertByRate(s[0], sortedRest)
  }

  /** `find_matching_buyers` as a value: the five best-ranked eligible buyers. */
  function TopMatches(lead: Lead, all: seq<Buyer>): (top: seq<Buyer>)
    ensures |top| <= MaxMatches && SortedByRate(top)
    ensures top <= SortByRate(EligibleBuyers(lead, all))
  {
    var ranked := SortByRate(EligibleBuyers(lead, all));
    if |ranked| <= MaxMatches then ranked else ranked[..MaxMatches]
  }

  // ---------------------------------------------------------------------
  // The matcher
  // ---------------------------------------------------------------------

  /** `find_matching_buyers`: the filter loop over the active buyers, then the
      sort and the cut to five. */
  method FindMatchingBuyers(lead: Lead, allBuyers: seq<Buyer>) returns (top: seq<Buyer>)
    ensures top == TopMatches(lead, allBuyers)
    ensures |top| <= MaxMatches && SortedByRate(top)
    ensures forall b :: b in top ==> b in allBuyers && b.active && PassesFilters(lead, b)
  {
    var buyers := ActiveBuyers(allBuyers);
    var matched: seq<Buyer> := [];
    for i := 0 to |buyers|
      invariant matched == Matches(lead, buyers[..i])
    {
      var buyer := buyers[i];
      assert buyers[..i + 1][..i] == buyers[..i];
      if lead.qualityTier !in buyer.acceptsLeadTiers {
        continue;
      }
      if Nationwide !in buyer.serviceAreas {
        var areaMatch := exists area | area in buyer.serviceAreas :: ContainsIgnoringCase(lead.originAddress, area);
        if !areaMatch {
          continue;
        }
      }
      if buyer.maxDistance.Some? && buyer.maxDistance.value != 0
         && lead.distanceMiles > buyer.maxDistance.value as real {
        continue;
      }
      if buyer.creditBalance < lead.leadValue {
        continue;
      }
      matched := matched + [buyer];
    }
    assert buyers[..|buyers|] == buyers;
    matched := SortByRate(matched);
    top := if |matched| <= MaxMatches then matched else matched[..MaxMatches];
    forall b | b in top ensures b in allBuyers && b.active && PassesFilters(lead, b) {
      TopMatchesEligible(lead, allBuyers, b);
    }
  }

  // ---------------------------------------------------------------------
  // Properties
  // ---------------------------------------------------------------------

  /** Every returned buyer is active, accepts the tier, serves the origin,
      has no distance cap the lead exceeds, and can pay the lead's price. */
  lemma TopMatchesEligible(lead: Lead, all: seq<Buyer>, b: Buyer)
    requires b in TopMatches(lead, all)
    ensures b in all && b.active
    ensures AcceptsTier(b, lead.qualityTier)
    ensures Nationwide in b.serviceAreas
            || exists area | area in b.serviceAreas :: ContainsIgnoringCase(lead.originAddress, area)
    ensures b.maxDistance.None? || b.maxDistance.value == 0
            || lead.distanceMiles <= b.maxDistance.value as real
    ensures b.creditBalance >= lead.leadValue
  {
    var ranked := SortByRate(EligibleBuyers(lead, all));
    assert b in ranked;
    assert b in multiset(ranked);
  }

  /** At most five buyers, best rate first; as many as are eligible up to five,
      and they are the head of the full ranking. */
  lemma TopMatchesShape(lead: Lead, all: seq<Buyer>)
    ensures var top, eligible := TopMatches(lead, all), EligibleBuyers(lead, all);
            |top| <= MaxMatches
            && |top| == (if |eligible| <= MaxMatches then |eligible| else MaxMatches)
            && SortedByRate(top)
            && top <= SortByRate(eligible)
  {
    var ranked := SortByRate(EligibleBuyers(lead, all));
    assert |multiset(ranked)| == |ranked|;
  }

  /** An eligible buyer that was cut has a conversion rate no higher than
      that of any buyer that was kept. */
  lemma OmittedRankNoHigher(lead: Lead, all: seq<Buyer>, x: Buyer, y: Buyer)
    requires x in EligibleBuyers(lead, all) && x !in TopMatches(lead, all)
    requires y in TopMatches(lead, all)
    ensures x.conversionRate <= y.conversionRate
  {
    var ranked := SortByRate(EligibleBuyers(lead, all));
    var top := TopMatches(lead, all);
    assert x in multiset(ranked);
    var k :| 0 <= k < |ranked| && ranked[k] == x;
    var j :| 0 <= j < |top| && top[j] == y;
    assert |ranked| > MaxMatches;
    assert top == ranked[..MaxMatches];
    assert k >= MaxMatches;
    assert ranked[j] == y;
  }

  /** When no more than five buyers are eligible, all of them receive the lead. */
  lemma FewMatchesAllKept(lead: Lead, all: seq<Buyer>, b: Buyer)
    requires |EligibleBuyers(lead, all)| <= MaxMatches
    requires b in all && b.active && PassesFilters(lead, b)
    ensures b in TopMatches(lead, all)
  {
    var eligible := EligibleBuyers(lead, all);
    var ranked := SortByRate(eligible);
    assert |multiset(ranked)| == |ranked|;
    assert b in multiset(eligible);
  }

  /** A buyer whose non-zero cap is below the lead's distance never gets it,
      whatever else it offers. */
  lemma DistanceCapExcludes(lead: Lead, all: seq<Buyer>, b: Buyer)
    requires b.maxDistance.Some? && b.maxDistance.value != 0
    requires lead.distanceMiles > b.maxDistance.value as real
    ensures b !in TopMatches(lead, all)
  {
    if b in TopMatches(lead, all) {
      TopMatchesEligible(lead, all, b);
    }
  }

  // Stability: buyers with equal rates keep their pool order.

  /** The buyers of `s` with conversion rate `rate`, in order. */
  function WithRate(s: seq<Buyer>, rate: real): (r: seq<Buyer>)
    ensures forall b :: b in r ==> b in s && b.conversionRate == rate
  {
    if s == [] then []
    else (if s[0].conversionRate == rate then [s[0]] else []) + WithRate(s[1..], rate)
  }

  lemma {:induction false} WithRateCons(x: Buyer, s: seq<Buyer>, rate: real)
    ensures WithRate([x] + s, rate) == (if x.conversionRate == rate then [x] else []) + WithRate(s, rate)
  {
    assert ([x] + s)[0] == x && ([x] + s)[1..] == s;
  }

  lemma {:induction false} InsertByRateKeepsTies(x: Buyer, s: seq<Buyer>, rate: real)
    ensures WithRate(InsertByRate(x, s), rate)
         == (if x.conversionRate == rate then [x] else []) + WithRate(s, rate)
  {
    if s == [] || s[0].conversionRate <= x.conversionRate {
      WithRateCons(x, s, rate);
    } else {
      var rest := InsertByRate(x, s[1..]);
      InsertByRateKeepsTies(x, s[1..], rate);
      WithRateCons(s[0], rest, rate);
      WithRateCons(s[0], s[1..], rate);
      assert [s[0]] + s[1..] == s;
    }
  }

  /** Sorting by rate keeps, for every rate, the buyers with that rate in
      their original order. */
  lemma {:induction false} SortByRateKeepsTies(s: seq<Buyer>, rate: real)
    ensures WithRate(SortByRate(s), rate) == WithRate(s, rate)
  {
    if s != [] {
      SortByRateKeepsTies(s[1..], rate);
      InsertByRateKeepsTies(s[0], SortByRate(s[1..]), rate);
    }
  }

  lemma {:induction false} WithRateOfPrefix(s: seq<Buyer>, k: nat, rate: real)
    requires k <= |s|
    ensures WithRate(s[..k], rate) <= WithRate(s, rate)
  {
    if k > 0 {
      WithRateOfPrefix(s[1..], k - 1, rate);
      assert s[..k][0] == s[0] && s[..k][1..] == s[1..][..k - 1];
    }
  }

  /** Among the returned buyers, those with equal rates appear in the order
      in which they were eligible, and form the first of them. */
  lemma TopMatchesKeepTies(lead: Lead, all: seq<Buyer>, rate: real)
    ensures WithRate(TopMatches(lead, all), rate) <= WithRate(EligibleBuyers(lead, all), rate)
  {
    var ranked := SortByRate(EligibleBuyers(lead, all));
    SortByRateKeepsTies(EligibleBuyers(lead, all), rate);
    if |ranked| > MaxMatches {
      WithRateOfPrefix(ranked, MaxMatches, rate);
    }
  }

  // Distinctness: buyer identifiers are unique in the pool, so no buyer is
  // returned twice.

  predicate DistinctIds(s: seq<Buyer>)
  {
    forall i, j :: 0 <= i < j < |s| ==> s[i].buyerId != s[j].buyerId
  }

  lemma {:induction false} DistinctAfterAppend(s: seq<Buyer>, b: Buyer)
    requires DistinctIds(s)
    requires forall y :: y in s ==> y.buyerId != b.buyerId
    ensures DistinctIds(s + [b])
  {
    forall i, j | 0 <= i < j < |s + [b]| ensures (s + [b])[i].buyerId != (s + [b])[j].buyerId {
      if j == |s| {
        assert (s + [b])[i] in s;
      }
    }
  }

  lemma {:induction false} ActiveBuyersDistinct(all: seq<Buyer>)
    requires DistinctIds(all)
    ensures DistinctIds(ActiveBuyers(all))
  {
    if all != [] {
      var init, b := all[..|all| - 1], all[|all| - 1];
      ActiveBuyersDistinct(init);
      forall y | y in ActiveBuyers(init) ensures y.buyerId != b.buyerId {
        var i :| 0 <= i < |init| && init[i] == y;
      }
      if b.active {
        DistinctAfterAppend(ActiveBuyers(init), b);
      }
    }
  }

  lemma {:induction false} MatchesDistinct(lead: Lead, pool: seq<Buyer>)
    requires DistinctIds(pool)
    ensures DistinctIds(Matches(lead, pool))
  {
    if pool != [] {
      var init, b := pool[..|pool| - 1], pool[|pool| - 1];
      MatchesDistinct(lead, init);
      forall y | y in Matches(lead, init) ensures y.buyerId != b.buyerId {
        var i :| 0 <= i < |init| && init[i] == y;
      }
      if PassesFilters(lead, b) {
        DistinctAfterAppend(Matches(lead, init), b);
      }
    }
  }

  lemma {:induction false} InsertByRateDistinct(x: Buyer, s: seq<Buyer>)
    requires DistinctIds(s)
    requires forall y :: y in s ==> y.buyerId != x.buyerId
    ensures DistinctIds(InsertByRate(x, s))
  {
    if s == [] || s[0].conversionRate <= x.conversionRate {
      var r := [x] + s;
      forall i, j | 0 <= i < j < |r| ensures r[i].buyerId != r[j].buyerId {
        if i == 0 {
          assert r[j] in s;
        } else {
          assert r[i] == s[i - 1] && r[j] == s[j - 1];
        }
      }
    } else {
      var rest := InsertByRate(x, s[1..]);
      InsertByRateDistinct(x, s[1..]);
      var r := [s[0]] + rest;
      forall i, j | 0 <= i < j < |r| ensures r[i].buyerId != r[j].buyerId {
        if i == 0 {
          assert r[j] in multiset(rest);
          if r[j] != x {
            var k :| 0 <= k < |s[1..]| && s[1..][k] == r[j];
            assert s[k + 1] == r[j];
          }
        } else {
          assert r[i] == rest[i - 1] && r[j] == rest[j - 1];
        }
      }
    }
  }

  lemma {:induction false} SortByRateDistinct(s: seq<Buyer>)
    requires DistinctIds(s)
    ensures DistinctIds(SortByRate(s))
  {
    if s != [] {
      var sortedRest := SortByRate(s[1..]);
      SortByRateDistinct(s[1..]);
      forall y | y in sortedRest ensures y.buyerId != s[0].buyerId {
        assert y in multiset(s[1..]);
        var k :| 0 <= k < |s[1..]| && s[1..][k] == y;
        assert s[k + 1] == y;
      }
      InsertByRateDistinct(s[0], sortedRest);
    }
  }

  /** With unique buyer identifiers in the pool, no buyer is returned twice. */
  lemma TopMatchesDistinct(lead: Lead, all: seq<Buyer>)
    requires DistinctIds(all)
    ensures DistinctIds(TopMatches(lead, all))
  {
    ActiveBuyersDistinct(all);
    MatchesDistinct(lead, ActiveBuyers(all));
    SortByRateDistinct(EligibleBuyers(lead, all));
  }
}
