/**
 * The move-request form as the estimate endpoint receives it, and the check
 * that its five mandatory fields are present before anything else happens.
 */
module Submissions {

  import opened Wrappers

  /** A submitted form. An absent key (or a JSON null) is `None`; a missing
      `special_items` list is the empty list, as the endpoint defaults it. */
  datatype Submission = Submission(
    name: Option<string>,
    email: Option<string>,
    phone: Option<string>,
    moveType: Option<string>,
    originAddress: Option<string>,
    destinationAddress: Option<string>,
    moveSize: Option<string>,
    moveTimeline: Option<string>,
    specialItems: seq<string>)

  /** A text field counts as given when it is present and not empty
      (Python's truthiness of a string or None). */
  predicate Given(field: Option<string>)
  {
    field.Some? && field.value != ""
  }

  /** The mandatory fields. */
  datatype Field = Name | Email | MoveType | OriginAddress | DestinationAddress

  /** The order in which the endpoint checks them. */
  const RequiredFields: seq<Field> := [Name, Email, MoveType, OriginAddress, DestinationAddress]

  /** The JSON key of each mandatory field, as named in the error message. */
  function FieldKey(f: Field): string
  {
    match f
    case Name => "name"
    case Email => "email"
    case MoveType => "move_type"
    case OriginAddress => "origin_address"
    case DestinationAddress => "destination_address"
  }

  function ValueOf(sub: Submission, f: Field): Option<string>
  {
    match f
    case Name => sub.name
    case Email => sub.email
    case MoveType => sub.moveType
    case OriginAddress => sub.originAddress
    case DestinationAddress => sub.destinationAddress
  }

  predicate Present(sub: Submission, f: Field)
  {
    Given(ValueOf(sub, f))
  }

  /** Outcome of the required-field check: accepted, or rejected naming the
      first field that is missing (the endpoint's 400 answer). */
  datatype Validation = Valid | Missing(field: Field)

  function ErrorMessage(f: Field): string
  {
    "Missing required field: " + FieldKey(f)
  }

  /** The first field of `fields` that the submission lacks, if any. */
  function FirstMissing(sub: Submission, fields: seq<Field>): (v: Validation)
    ensures v.Valid? <==> forall i :: 0 <= i < |fields| ==> Present(sub, fields[i])
    ensures v.Missing? ==> exists k :: 0 <= k < |fields| && fields[k] == v.field
                                     && !Present(sub, fields[k])
                                     && forall i :: 0 <= i < k ==> Present(sub, fields[i])
  {
    if fields == [] then Valid
    else if !Present(sub, fields[0]) then Missing(fields[0])
    else
      var rest := FirstMissing(sub, fields[1..]);
      assert rest.Missing? ==> exists k :: 0 <= k < |fields| && fields[k] == rest.field
                                          && !Present(sub, fields[k])
                                          && forall i :: 0 <= i < k ==> Present(sub, fields[i])
      by {
        if rest.Missing? {
          var k :| 0 <= k < |fields[1..]| && fields[1..][k] == rest.field && !Present(sub, fields[1..][k])
                   && forall i :: 0 <= i < k ==> Present(sub, fields[1..][i]);
          assert forall i :: 0 <= i < k + 1 ==> Present(sub, fields[i]) by {
            forall i | 0 <= i < k + 1 ensures Present(sub, fields[i]) {
              if i > 0 { assert fields[i] == fields[1..][i - 1]; }
            }
          }
        }
      }
      assert rest.Valid? ==> forall i :: 0 <= i < |fields| ==> Present(sub, fields[i]) by {
        if rest.Valid? {
          forall i | 0 <= i < |fields| ensures Present(sub, fields[i]) {
            if i > 0 { assert fields[i] == fields[1..][i - 1]; }
          }
        }
      }
      rest
  }

  /** The specification of the endpoint's required-field check. */
  function CheckRequired(sub: Submission): (v: Validation)
    ensures v.Valid? <==> forall f :: f in RequiredFields ==> Present(sub, f)
    ensures v.Missing? ==> v.field in RequiredFields && !Present(sub, v.field)
  {
    FirstMissing(sub, RequiredFields)
  }

  /** The required-field loop of the estimate endpoint: walk the mandatory
      fields in order and stop at the first one that is missing or empty. */
  method ValidateRequiredFields(sub: Submission) returns (v: Validation)
    ensures v == CheckRequired(sub)
    ensures v.Valid? <==> forall f :: f in RequiredFields ==> Present(sub, f)
  {
    for i := 0 to |RequiredFields|
      invariant forall j :: 0 <= j < i ==> Present(sub, RequiredFields[j])
      invariant FirstMissing(sub, RequiredFields) == FirstMissing(sub, RequiredFields[i..])
    {
      var field := RequiredFields[i];
      if !Given(ValueOf(sub, field)) {
        return Missing(field);
      }
      assert RequiredFields[i..][1..] == RequiredFields[i + 1..];
    }
    return Valid;
  }

  /** Validation names the first missing field in the fixed order name, email,
      move_type, origin_address, destination_address, and passes exactly when
      all five are given. */
  lemma CheckRequiredOrder(sub: Submission)
    ensures CheckRequired(sub) == Valid <==>
      Given(sub.name) && Given(sub.email) && Given(sub.moveType)
      && Given(sub.originAddress) && Given(sub.destinationAddress)
    ensures CheckRequired(sub) == Missing(Name) <==> !Given(sub.name)
    ensures CheckRequired(sub) == Missing(Email) <==> Given(sub.name) && !Given(sub.email)
    ensures CheckRequired(sub) == Missing(MoveType) <==>
      Given(sub.name) && Given(sub.email) && !Given(sub.moveType)
    ensures CheckRequired(sub) == Missing(OriginAddress) <==>
      Given(sub.name) && Given(sub.email) && Given(sub.moveType) && !Given(sub.originAddress)
    ensures CheckRequired(sub) == Missing(DestinationAddress) <==>
      Given(sub.name) && Given(sub.email) && Given(sub.moveType) && Given(sub.originAddress)
      && !Given(sub.destinationAddress)
  {
    var tail4 := [Email, MoveType, OriginAddress, DestinationAddress];
    var tail3 := [MoveType, OriginAddress, DestinationAddress];
    var tail2 := [OriginAddress, DestinationAddress];
    var tail1 := [DestinationAddress];
    assert RequiredFields[1..] == tail4 && tail4[1..] == tail3 && tail3[1..] == tail2;
    assert tail2[1..] == tail1 && tail1[1..] == [];
    assert FirstMissing(sub, tail1) == if !Present(sub, DestinationAddress) then Missing(DestinationAddress) else Valid;
    assert FirstMissing(sub, tail2) == if !Present(sub, OriginAddress) then Missing(OriginAddress) else FirstMissing(sub, tail1);
    assert FirstMissing(sub, tail3) == if !Present(sub, MoveType) then Missing(MoveType) else FirstMissing(sub, tail2);
    assert FirstMissing(sub, tail4) == if !Present(sub, Email) then Missing(Email) else FirstMissing(sub, tail3);
  }
}
