/**
 * The estimate endpoint's pipeline: validate the form, price it, qualify it,
 * store it as a lead, find its buyers and, when there are any, distribute it.
 * The route distance (from geocoding) and the generated lead id are inputs.
 */
module Intake {

  import opened Wrappers
  import opened Submissions
  import opened Pricing
  import opened Qualification
  import opened Records
  import opened Matching

  datatype EstimateOutcome =
    | BadRequest(missing: Field, error: string)
    | Created(lead: Lead, estimate: Estimate, buyers: seq<Buyer>)

  /** `create_estimate`, from the parsed form to the distributed lead. */
  method CreateEstimate(sub: Submission, leadId: string, distanceMiles: real, allBuyers: seq<Buyer>)
    returns (outcome: EstimateOutcome)
    ensures outcome.BadRequest? <==> CheckRequired(sub).Missing?
    ensures outcome.BadRequest? ==> CheckRequired(sub) == Missing(outcome.missing)
    ensures outcome.BadRequest? ==> outcome.error == ErrorMessage(outcome.missing)
    ensures outcome.Created? ==>
      var lead, estimate := outcome.lead, outcome.estimate;
      && fresh(lead)
      && lead.leadId == leadId
      && Some(lead.name) == sub.name && Some(lead.email) == sub.email && lead.phone == sub.phone
      && Some(lead.moveType) == sub.moveType
      && Some(lead.originAddress) == sub.originAddress
      && Some(lead.destinationAddress) == sub.destinationAddress
      && lead.moveSize == sub.moveSize && lead.moveTimeline == sub.moveTimeline
      && lead.specialItems == sub.specialItems && lead.distanceMiles == distanceMiles
      && estimate == CalculateEstimate(distanceMiles, sub.moveSize, sub.specialItems)
      && lead.estimateLow == estimate.low && lead.estimateHigh == estimate.high
      && lead.estimateTypical == estimate.typical
      && (lead.qualityTier, lead.qualityScore) == QualifyLead(sub, distanceMiles)
      && lead.leadValue == LeadValue(lead.qualityTier)
      && outcome.buyers == TopMatches(lead, allBuyers)
      && (outcome.buyers == [] ==> lead.status == New && lead.distributedTo == None)
      && (outcome.buyers != [] ==>
            lead.status == Distributed && lead.distributedTo == Some(BuyerIds(outcome.buyers)))
  {
    var validation := ValidateRequiredFields(sub);
    if validation.Missing? {
      return BadRequest(validation.field, ErrorMessage(validation.field));
    }
    CheckRequiredOrder(sub);

    var estimate := CalculateEstimate(distanceMiles, sub.moveSize, sub.specialItems);
    var (tier, score) := QualifyLead(sub, distanceMiles);

    var lead := new Lead(leadId, sub.name.value, sub.email.value, sub.phone,
                         sub.moveType.value, sub.originAddress.value, sub.destinationAddress.value,
                         sub.moveSize, sub.moveTimeline, sub.specialItems, distanceMiles,
                         estimate.low, estimate.high, estimate.typical,
                         tier, score, LeadValue(tier));

    var buyers := FindMatchingBuyers(lead, allBuyers);
    if buyers != [] {
      lead.DistributeToBuyers(buyers);
    }
    return Created(lead, estimate, buyers);
  }
}
