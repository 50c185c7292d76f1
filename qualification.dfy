/**
 * The lead qualifier: an additive points rubric over the submitted form and
 * the route distance, a tier chosen from the total by fixed thresholds, and
 * the price per tier that buyers are charged for the lead.
 */
module Qualification {

  import opened Wrappers
  import opened Submissions

  datatype Tier = Platinum | Gold | Silver | Bronze

  /** Position of a tier in the quality order, bronze lowest. */
  function Rank(t: Tier): nat
  {
    match t
    case Bronze => 0
    case Silver => 1
    case Gold => 2
    case Platinum => 3
  }

  /** Price of a lead of each tier, in dollars. */
  const LeadPricing: map<Tier, real> :=
    map[Platinum := 75.0, Gold := 50.0, Silver := 35.0, Bronze := 25.0]

  /** Every tier is a key of the price table, so the lookup never fails. */
  lemma PricingCoversEveryTier(t: Tier)
    ensures t in LeadPricing
  {
  }

  /** The `lead_value` stored on a lead of tier `t`. */
  function LeadValue(t: Tier): (v: real)
    ensures v == 75.0 || v == 50.0 || v == 35.0 || v == 25.0
  {
    PricingCoversEveryTier(t);
    LeadPricing[t]
  }

  /** A higher tier never costs less. */
  lemma LeadValueMonotone(t1: Tier, t2: Tier)
    requires Rank(t1) <= Rank(t2)
    ensures LeadValue(t1) <= LeadValue(t2)
    ensures Rank(t1) < Rank(t2) ==> LeadValue(t1) < LeadValue(t2)
  {
  }

  /** Contact completeness: 10 points each for name, email and phone. */
  function ContactPoints(sub: Submission): (p: int)
    ensures 0 <= p <= 30
    ensures p == 30 <==> Given(sub.name) && Given(sub.email) && Given(sub.phone)
  {
    (if Given(sub.name) then 10 else 0)
    + (if Given(sub.email) then 10 else 0)
    + (if Given(sub.phone) then 10 else 0)
  }

  /** Move detail: 15 for a size, 15 for a timeline, 10 for any special item. */
  function DetailPoints(sub: Submission): (p: int)
    ensures 0 <= p <= 40
    ensures p == 40 <==> Given(sub.moveSize) && Given(sub.moveTimeline) && sub.specialItems != []
  {
    (if Given(sub.moveSize) then 15 else 0)
    + (if Given(sub.moveTimeline) then 15 else 0)
    + (if sub.specialItems != [] then 10 else 0)
  }

  /** Distance factor: exactly one bracket applies. */
  function DistancePoints(distanceMiles: real): (p: int)
    ensures 5 <= p <= 20
  {
    if distanceMiles > 500.0 then 20
    else if distanceMiles > 100.0 then 15
    else if distanceMiles > 50.0 then 10
    else 5
  }

  /** Urgency points by exact timeline value. */
  const TimelineScores: map<string, int> :=
    map["asap" := 10, "1-2weeks" := 7, "1-2months" := 4, "3+months" := 2]

  /** Timeline urgency; a missing or unlisted timeline is worth nothing. */
  function UrgencyPoints(timeline: Option<string>): (p: int)
    ensures 0 <= p <= 10
    ensures timeline.None? || timeline.value !in TimelineScores ==> p == 0
  {
    if timeline.Some? && timeline.value in TimelineScores then TimelineScores[timeline.value] else 0
  }

  /** The quality score: the sum of the four independent parts of the rubric. */
  function Score(sub: Submission, distanceMiles: real): (s: int)
    ensures 5 <= s <= 100
  {
    ContactPoints(sub) + DetailPoints(sub) + DistancePoints(distanceMiles)
    + UrgencyPoints(sub.moveTimeline)
  }

  /** The tier for a score: each tier holds exactly on its score range. */
  function TierFor(score: int): (t: Tier)
    ensures t == Platinum <==> score >= 85
    ensures t == Gold <==> 70 <= score < 85
    ensures t == Silver <==> 50 <= score < 70
    ensures t == Bronze <==> score < 50
  {
    if score >= 85 then Platinum
    else if score >= 70 then Gold
    else if score >= 50 then Silver
    else Bronze
  }

  /** `qualify_lead`: the tier and the score of a submission. */
  function QualifyLead(sub: Submission, distanceMiles: real): (r: (Tier, int))
    ensures 5 <= r.1 <= 100
    ensures r.0 in LeadPricing
  {
    var score := Score(sub, distanceMiles);
    (TierFor(score), score)
  }

  /** A higher score never yields a lower tier. */
  lemma TierMonotone(s1: int, s2: int)
    requires s1 <= s2
    ensures Rank(TierFor(s1)) <= Rank(TierFor(s2))
  {
  }

  /** With everything else fixed, a longer move never scores less. */
  lemma ScoreMonotoneInDistance(sub: Submission, d1: real, d2: real)
    requires d1 <= d2
    ensures Score(sub, d1) <= Score(sub, d2)
    ensures Rank(QualifyLead(sub, d1).0) <= Rank(QualifyLead(sub, d2).0)
  {
    TierMonotone(Score(sub, d1), Score(sub, d2));
  }

  /** A form that passed validation carries name and email, so it scores at
      least 25 (10 + 10 + the lowest distance bracket). */
  lemma ValidatedScoresAtLeast25(sub: Submission, distanceMiles: real)
    requires CheckRequired(sub) == Valid
    ensures Score(sub, distanceMiles) >= 25
  {
    CheckRequiredOrder(sub);
  }

  /** A complete, urgent, long-distance request reaches the maximum score. */
  lemma FullUrgentLongMoveIsPlatinum(sub: Submission)
    requires Given(sub.name) && Given(sub.email) && Given(sub.phone) && Given(sub.moveSize)
    requires sub.moveTimeline == Some("asap") && sub.specialItems != []
    ensures QualifyLead(sub, 600.0) == (Platinum, 100)
  {
  }

  /** A short move without phone, timeline or special items scores 40: bronze. */
  lemma SparseLocalMoveIsBronze(sub: Submission)
    requires Given(sub.name) && Given(sub.email) && !Given(sub.phone) && Given(sub.moveSize)
    requires sub.moveTimeline.None? && sub.specialItems == []
    ensures QualifyLead(sub, 10.0) == (Bronze, 40)
  {
  }
}
