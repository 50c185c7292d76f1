# Lead qualification, pricing and buyer matching — a Dafny model

This project models the decision pipeline of the lead broker's estimate
endpoint (`src/routes/leads.py`): a move-request form is checked for its five
mandatory fields, priced (`calculate_estimate`), scored and tiered
(`qualify_lead`, `LEAD_PRICING`), stored as a lead, matched against the
buyer pool (`find_matching_buyers`) and, when any buyer matches, marked as
distributed (`distribute_lead_to_buyers`).

Modules, one per component:

- `Submissions` (submissions.dfy): the form, with absent keys as `None` and a
  field "given" when present and non-empty (Python truthiness); the
  required-field check as a specification function `FirstMissing` and as the
  endpoint's loop, `ValidateRequiredFields`, proved equal to it.
- `Pricing` (pricing.dfy): the size table with its 1.5 default, the linear
  cost components in exact real arithmetic, and `RoundTo10`, rounding to the
  nearest ten with exact halves going to the even ten (the rule of
  `round(x, -1)`). Its contract (a multiple of ten, within five) is what the
  ordering and monotonicity lemmas use.
- `Qualification` (qualification.dfy): the tier enum, the price table, the four
  independent parts of the rubric, the score, and the tier thresholds.
- `Records` (records.dfy): the `Lead` class (the columns fixed at creation are
  `const`; `status` and `distributedTo` are the fields updated in place) and
  the `Buyer` profile with typed collections in place of JSON text.
- `Matching` (matching.dfy): the four filters; the matcher as a loop
  (`FindMatchingBuyers`) proved equal to a specification `TopMatches` =
  filter, stable sort by conversion rate (best first), first five; and the
  properties of that specification.
- `Intake` (intake.dfy): `create_estimate` from the parsed form to the
  distributed lead, with the 400 answer for a missing field.

Three behaviours of the source that the model keeps as they are:
the score is never below 5, because exactly one distance bracket always adds
points (src/routes/leads.py:289-292); a buyer's `max_distance` of 0 is no cap,
like an absent one, because the cap is tested for truthiness
(src/routes/leads.py:335); and a lead records its buyers as an ordered list of
identifiers in match order (src/routes/leads.py:350-351).

## Model

| member | source | states |
|---|---|---|
| `Submissions.FirstMissing` | src/routes/leads.py:28-31 | Passes iff every listed field is present and non-empty; otherwise names a missing field all of whose predecessors are present |
| `Submissions.ValidateRequiredFields` | src/routes/leads.py:28-31 | The loop returns exactly the specification's verdict, and passes iff all five mandatory fields are given |
| `Submissions.CheckRequired` | src/routes/leads.py:28-31 | Passes iff all five mandatory fields are given; a rejection names a mandatory field that is missing |
| `Submissions.CheckRequiredOrder` | src/routes/leads.py:28-31 | The rejection names name, email, move_type, origin_address, destination_address in that priority, each iff it is the first one missing; passes iff all five are given |
| `Qualification.PricingCoversEveryTier` | src/routes/leads.py:14-19 | Every tier is a key of the price table |
| `Qualification.LeadValue` | src/routes/leads.py:78 | The stored lead value is always one of 75, 50, 35, 25 |
| `Qualification.LeadValueMonotone` | src/routes/leads.py:14-19 | A higher tier is never cheaper, and a strictly higher tier is strictly dearer |
| `Qualification.ContactPoints` | src/routes/leads.py:278-281 | Contact points lie in 0..30 and reach 30 iff name, email and phone are all given |
| `Qualification.DetailPoints` | src/routes/leads.py:283-286 | Detail points lie in 0..40 and reach 40 iff size, timeline and a special item are all given |
| `Qualification.DistancePoints` | src/routes/leads.py:288-292 | Exactly one bracket applies, worth between 5 and 20 |
| `Qualification.UrgencyPoints` | src/routes/leads.py:294-301 | Urgency lies in 0..10, and a missing or unlisted timeline is worth 0 |
| `Qualification.Score` | src/routes/leads.py:276-301 | The total score always lies between 5 and 100 |
| `Qualification.QualifyLead` | src/routes/leads.py:274-313 | The returned score lies in 5..100 and the returned tier is a key of the price table |
| `Qualification.TierFor` | src/routes/leads.py:303-311 | Platinum iff score >= 85, gold iff 70..84, silver iff 50..69, bronze iff below 50 |
| `Qualification.TierMonotone` | src/routes/leads.py:303-311 | A higher score never yields a lower tier |
| `Qualification.ScoreMonotoneInDistance` | src/routes/leads.py:288-292 | With the form fixed, a longer move never lowers the score or the tier |
| `Qualification.ValidatedScoresAtLeast25` | src/routes/leads.py:278-280 | A form that passed validation scores at least 25 |
| `Qualification.FullUrgentLongMoveIsPlatinum` | src/routes/leads.py:276-313 | A complete "asap" form at 600 miles scores 100, platinum |
| `Qualification.SparseLocalMoveIsBronze` | src/routes/leads.py:276-313 | A form without phone, timeline and special items at 10 miles scores 40, bronze |
| `Pricing.RoundTo10` | src/routes/leads.py:266-271 | The rounded amount is a multiple of ten within five of the input |
| `Pricing.RoundTo10Monotone` | src/routes/leads.py:266-271 | Rounding never reverses the order of two amounts |
| `Pricing.RoundTo10HalfToEven` | src/routes/leads.py:266-271 | An amount ending in exactly 5 goes to the even multiple of ten |
| `Pricing.RoundTo10NonNegative` | src/routes/leads.py:266-271 | A non-negative amount rounds to a non-negative amount |
| `Pricing.SizeMultiplier` | src/routes/leads.py:244-252 | The multiplier lies in 1.0..2.5, is the table's entry for a listed size, and 1.5 for an absent or unlisted one |
| `Pricing.ComputeCosts` | src/routes/leads.py:254-260 | For a non-negative distance, labor and materials are positive and travel and surcharge non-negative |
| `Pricing.EstimateOf` | src/routes/leads.py:265-272 | Every reported figure is a multiple of ten |
| `Pricing.TypicalClosedForm` | src/routes/leads.py:255-263 | The unrounded typical cost is 200 x multiplier + 2.50 x miles + 100 x special items, and the reported typical is within 5 of it |
| `Pricing.CalculateEstimate` | src/routes/leads.py:237-272 | Every total is a multiple of ten; for a non-negative distance 0 <= low <= typical <= high and every component is non-negative |
| `Pricing.EstimateOfMonotone` | src/routes/leads.py:263-268 | A larger cost total never gets a lower low, typical or high figure |
| `Pricing.EstimateMonotoneInDistance` | src/routes/leads.py:256-268 | A longer move never gets a lower low, typical, high or travel figure |
| `Pricing.EstimateMonotoneInSpecialItems` | src/routes/leads.py:260-268 | More special items never get a lower low, typical or high figure |
| `Pricing.StudioAtZeroDistance` | src/routes/leads.py:237-272 | A studio at 0 miles with no special items: labor 150, materials 50, travel 0, typical 200, low 160, high 240 |
| `Pricing.LargeHomeRoundsHalfToEven` | src/routes/leads.py:244-271 | A 4+br move reports labor 380 and materials 120 (375 and 125 rounded half to even) |
| `Records.BuyerIds` | src/routes/leads.py:350 | The identifier list has one entry per buyer, in the buyers' order |
| `Records.Lead.constructor` | src/routes/leads.py:57-79 | A new lead holds the given columns, has status new and no distribution record |
| `Records.Lead.DistributeToBuyers` | src/routes/leads.py:348-352 | Afterwards the lead records exactly the buyers' identifiers in match order and is distributed; no other field can change |
| `Matching.Lower` | src/routes/leads.py:330 | Lower-casing keeps the length, maps each character, and leaves no upper-case ASCII letter |
| `Matching.ServesOriginIgnoresCase` | src/routes/leads.py:326-332 | Service-area matching is unchanged by lower-casing the origin address or a non-nationwide buyer's areas |
| `Matching.ActiveBuyers` | src/routes/leads.py:317 | A buyer is in the queried pool iff it is in storage and active |
| `Matching.Matches` | src/routes/leads.py:320-342 | A buyer survives the loop iff it is in the pool and passes all four filters |
| `Matching.AcceptsTier` | src/routes/leads.py:321-324 | No contract of its own: the tier filter; what it means for the result is stated by Matches and TopMatchesEligible |
| `Matching.ServesOrigin` | src/routes/leads.py:326-332 | No contract of its own: the service-area filter; see ServesOriginIgnoresCase and TopMatchesEligible |
| `Matching.WithinDistanceCap` | src/routes/leads.py:334-336 | No contract of its own: the distance-cap filter; see DistanceCapExcludes and TopMatchesEligible |
| `Matching.CanAfford` | src/routes/leads.py:338-340 | No contract of its own: the credit filter; see TopMatchesEligible |
| `Matching.PassesFilters` | src/routes/leads.py:321-340 | No contract of its own: the conjunction of the four filters; Matches keeps a buyer iff it holds |
| `Matching.InsertByRate` | src/routes/leads.py:345 | Insertion adds exactly the one buyer |
| `Matching.InsertByRateSorted` | src/routes/leads.py:345 | Insertion keeps a list ordered by conversion rate, best first |
| `Matching.SortByRate` | src/routes/leads.py:345 | The sort is a permutation and is ordered by conversion rate, best first |
| `Matching.SortByRateKeepsTies` | src/routes/leads.py:345 | For every rate, the buyers with that rate keep their relative order (the sort is stable) |
| `Matching.TopMatches` | src/routes/leads.py:344-346 | At most five buyers, sorted best rate first, the head of the ranking of all eligible buyers |
| `Matching.FindMatchingBuyers` | src/routes/leads.py:315-346 | The loop returns the specification's result: at most five buyers, best rate first, each active and passing every filter |
| `Matching.TopMatchesEligible` | src/routes/leads.py:320-342 | Every returned buyer is active, accepts the tier, is nationwide or has an area in the origin ignoring case, has no non-zero cap below the distance, and has credit >= lead value |
| `Matching.TopMatchesShape` | src/routes/leads.py:344-346 | At most five buyers, exactly min(5, eligible count) of them, sorted best first, the head of the full ranking |
| `Matching.OmittedRankNoHigher` | src/routes/leads.py:344-346 | An eligible buyer left out has a conversion rate no higher than every returned buyer's |
| `Matching.FewMatchesAllKept` | src/routes/leads.py:344-346 | When at most five buyers are eligible, every one of them is returned |
| `Matching.DistanceCapExcludes` | src/routes/leads.py:334-336 | A buyer whose non-zero cap is below the lead's distance is never returned |
| `Matching.TopMatchesKeepTies` | src/routes/leads.py:344-346 | Returned buyers with equal rates appear in pool order and are the first eligible ones with that rate |
| `Matching.TopMatchesDistinct` | src/routes/leads.py:317-346 | With unique buyer identifiers in storage, no buyer is returned twice |
| `Intake.CreateEstimate` | src/routes/leads.py:22-89 | A missing field gives the 400 answer naming the first one, with the text "Missing required field: " and its key; otherwise a new lead carries the form, the estimate, the tier, score and price, and is distributed to the matched buyers exactly when there are any, staying new otherwise |

## Left out

- Geocoding (`enrich_address`) is not part of this model: it calls a web
  service; its coordinates (or the fallback ones) feed the distance and the
  stored coordinates (see below).
- `calculate_distance` (haversine, floating-point trigonometry) is not part
  of this model: the route distance is an input, a real number.
- Floating point: money and distances are exact reals. Python computes on
  binary floats, so an amount that is an exact half in real arithmetic may
  not be one in binary (and the reverse); at such ties the reported figure
  can differ by ten from the model's.
- `Matching.Lower`: lower-cases ASCII letters only, where Python's
  `str.lower` covers all of Unicode.
- The model types every field (text or absent, a list of text for
  `special_items`) and does not represent other JSON types. The source
  raises on some of them (an explicit `null` for `special_items`, a `NULL`
  credit balance or conversion rate; a number or boolean `move_type` only
  when the response is built (src/routes/leads.py:102), after the lead was
  stored and distributed; a list or object `move_type` when the lead is
  committed (src/routes/leads.py:82), before it is matched) and silently
  accepts others (a number for `move_size` or `move_timeline` scores as given;
  a text `special_items` is charged per character; a number for `name` or
  `email` passes validation).
- Accepted tiers are a set of tier values: an entry in the stored list that
  names no tier can never match, so dropping it changes nothing.
- The 500 answer for unexpected exceptions, the response body (marketing
  text, the md5 estimate id, random social-proof counts), the random lead id
  (an input here), database commits, the print in the distribution step,
  analytics tracking, the buyer and lead listings with pagination, and the
  sample-buyer seeding.
- The origin and destination coordinates stored on the lead (they come from
  geocoding).
- The buyer's credit is only compared with the lead value, never debited,
  as in the source.
