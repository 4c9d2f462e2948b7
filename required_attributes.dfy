/** RequiredValidShipCodeAttribute (RequiredValidShipCodeAttribute.cs). The class compiles its
    own copy of the pattern `^AE-\d{3}$` and writes its own messages. */
module RequiredValidShipCode {
  import opened DotNetText
  import opened DotNetRegex
  import opened ShipCodeValidation

  const ShipCodePattern: AnchoredPattern :=
    Anchored([One(Literal('A')), One(Literal('E')), One(Literal('-')), Repeat(Digit, 3)])

  /** RequiredValidShipCodeAttribute.IsValid. */
  function IsValidValue(v: Value): (r: ValidationResult)
    ensures IsMissing(v) ==> r == Error("Ship code is required.")
    ensures r.Success? <==> v.Str? && IsShipCode(v.s)
    ensures !IsMissing(v) && r.Error? ==>
      r.message == "Ship code must follow the pattern 'AE-XXX' where XXX is a 3-digit number (e.g., AE-001, AE-004)."
  {
    ShipCodePatternMeaning(ToText(v));
    if v.Null? || IsBlank(ToText(v)) then
      Error("Ship code is required.")
    else if v.Str? && IsMatch(ShipCodePattern, v.s) then
      Success
    else
      Error("Ship code must follow the pattern 'AE-XXX' where XXX is a 3-digit number (e.g., AE-001, AE-004).")
  }

  /** The attribute is ValidShipCodeAttribute under another name: same pattern, same check
      order and, as it happens, the same two messages. */
  lemma SameAsValidShipCode(v: Value)
    ensures IsValidValue(v) == ValidShipCodeAttribute(v)
  {
  }
}

/** RequiredValidShipIdAttribute (RequiredValidShipIdAttribute.cs): the same checks as
    RequiredValidShipCodeAttribute with "Ship ID" in its messages. */
module RequiredValidShipId {
  import opened DotNetText
  import opened DotNetRegex
  import opened ShipCodeValidation
  import RequiredValidShipCode

  const ShipIdPattern: AnchoredPattern :=
    Anchored([One(Literal('A')), One(Literal('E')), One(Literal('-')), Repeat(Digit, 3)])

  /** RequiredValidShipIdAttribute.IsValid. */
  function IsValidValue(v: Value): (r: ValidationResult)
    ensures IsMissing(v) ==> r == Error("Ship ID is required.")
    ensures r.Success? <==> v.Str? && IsShipCode(v.s)
    ensures !IsMissing(v) && r.Error? ==>
      r.message == "Ship ID must follow the pattern 'AE-XXX' where XXX is a 3-digit number (e.g., AE-001, AE-004)."
  {
    ShipCodePatternMeaning(ToText(v));
    if v.Null? || IsBlank(ToText(v)) then
      Error("Ship ID is required.")
    else if v.Str? && IsMatch(ShipIdPattern, v.s) then
      Success
    else
      Error("Ship ID must follow the pattern 'AE-XXX' where XXX is a 3-digit number (e.g., AE-001, AE-004).")
  }

  /** The two attributes accept and reject the same values and fail for the same reason;
      only the wording of the messages differs. */
  lemma SameVerdictAsRequiredValidShipCode(v: Value)
    ensures IsValidValue(v).Success? <==> RequiredValidShipCode.IsValidValue(v).Success?
    ensures IsMissing(v) ==> IsValidValue(v) == Error("Ship ID is required.") &&
                             RequiredValidShipCode.IsValidValue(v) == Error("Ship code is required.")
  {
  }
}
