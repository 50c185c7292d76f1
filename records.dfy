/**
 * The stored records: a lead, whose distribution fields are updated in place
 * once buyers are found, and a buyer profile.
 */
module Records {

  import opened Wrappers
  import opened Qualification

  /** Lifecycle of a lead; this core only ever moves it from new to distributed. */
  datatype LeadStatus = New | Distributed | Contacted | Converted

  /** A buyer profile, with its JSON-text columns as typed collections. */
  datatype Buyer = Buyer(
    buyerId: string,
    serviceAreas: seq<string>,
    maxDistance: Option<int>,
    acceptsLeadTiers: set<Tier>,
    conversionRate: real,
    creditBalance: real,
    active: bool)

  /** The identifiers of `buyers`, in order. */
  function BuyerIds(buyers: seq<Buyer>): (ids: seq<string>)
    ensures |ids| == |buyers|
    ensures forall i :: 0 <= i < |buyers| ==> ids[i] == buyers[i].buyerId
  {
    if buyers == [] then [] else [buyers[0].buyerId] + BuyerIds(buyers[1..])
  }

  /** A lead: what was submitted, what was derived from it, and its
      distribution state. Everything but the distribution state is fixed
      when the lead is created. */
  class Lead {
    const leadId: string
    const name: string
    const email: string
    const phone: Option<string>
    const moveType: string
    const originAddress: string
    const destinationAddress: string
    const moveSize: Option<string>
    const moveTimeline: Option<string>
    const specialItems: seq<string>
    const distanceMiles: real
    const estimateLow: int
    const estimateHigh: int
    const estimateTypical: int
    const qualityTier: Tier
    const qualityScore: int
    const leadValue: real

    var distributedTo: Option<seq<string>>
    var status: LeadStatus

    constructor (leadId: string, name: string, email: string, phone: Option<string>,
                 moveType: string, originAddress: string, destinationAddress: string,
                 moveSize: Option<string>, moveTimeline: Option<string>, specialItems: seq<string>,
                 distanceMiles: real, estimateLow: int, estimateHigh: int, estimateTypical: int,
                 qualityTier: Tier, qualityScore: int, leadValue: real)
      ensures this.leadId == leadId && this.name == name && this.email == email
      ensures this.phone == phone && this.moveType == moveType
      ensures this.originAddress == originAddress && this.destinationAddress == destinationAddress
      ensures this.moveSize == moveSize && this.moveTimeline == moveTimeline
      ensures this.specialItems == specialItems && this.distanceMiles == distanceMiles
      ensures this.estimateLow == estimateLow && this.estimateHigh == estimateHigh
      ensures this.estimateTypical == estimateTypical
      ensures this.qualityTier == qualityTier && this.qualityScore == qualityScore
      ensures this.leadValue == leadValue
      ensures status == New && distributedTo == None
    {
      this.leadId, this.name, this.email, this.phone := leadId, name, email, phone;
      this.moveType, this.originAddress, this.destinationAddress := moveType, originAddress, destinationAddress;
      this.moveSize, this.moveTimeline, this.specialItems := moveSize, moveTimeline, specialItems;
      this.distanceMiles := distanceMiles;
      this.estimateLow, this.estimateHigh, this.estimateTypical := estimateLow, estimateHigh, estimateTypical;
      this.qualityTier, this.qualityScore, this.leadValue := qualityTier, qualityScore, leadValue;
      distributedTo := None;
      status := New;
    }

    /** `distribute_lead_to_buyers`: record the buyers' identifiers, in match
        order, and mark the lead distributed. The fields not mentioned here
        are constant and cannot change. */
    method DistributeToBuyers(buyers: seq<Buyer>)
      modifies this
      ensures distributedTo == Some(BuyerIds(buyers))
      ensures status == Distributed
    {
      var ids := BuyerIds(buyers);
      distributedTo := Some(ids);
      status := Distributed;
    }
  }
}
