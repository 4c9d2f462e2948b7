/** ShipCodeValidation and ValidShipCodeAttribute (ValidShipCodeAttribute.cs). */
module ShipCodeValidation {
  import opened DotNetText
  import opened DotNetRegex

  /** An `object?` handed to a validator. `text` is what ToString() returns; an override that
      returns null is written as "", which string.IsNullOrWhiteSpace and string interpolation
      treat the same way. */
  datatype Value =
    | Null
    | Str(s: string)                            // a System.String
    | Sequence(items: seq<Value>, text: string) // any other IEnumerable (a List<string>, an array, ...)
    | Scalar(text: string)                      // any other object, e.g. a boxed int or char

  /** value.ToString(), with "" for null. */
  function ToText(v: Value): string {
    match v
    case Null => ""
    case Str(s) => s
    case Sequence(_, t) => t
    case Scalar(t) => t
  }

  /** The guard `value == null || string.IsNullOrWhiteSpace(value.ToString())`. */
  predicate IsMissing(v: Value) {
    v.Null? || IsBlank(ToText(v))
  }

  /** The compiled pattern `^AE-\d{3}$`. */
  const ShipCodePattern: AnchoredPattern :=
    Anchored([One(Literal('A')), One(Literal('E')), One(Literal('-')), Repeat(Digit, 3)])

  const REQUIRED_MESSAGE: string := "Ship code is required."
  const PATTERN_MESSAGE: string :=
    "Ship code must follow the pattern 'AE-XXX' where XXX is a 3-digit number (e.g., AE-001, AE-004)."

  /** What `^AE-\d{3}$` accepts, read declaratively: "AE-", three decimal digits, and
      optionally one final '\n'. */
  predicate IsShipCode(s: string) {
    && (|s| == 6 || (|s| == 7 && s[6] == '\n'))
    && s[0] == 'A' && s[1] == 'E' && s[2] == '-'
    && IsDecimalDigit(s[3]) && IsDecimalDigit(s[4]) && IsDecimalDigit(s[5])
  }

  /** The .NET matcher run on ShipCodePattern accepts exactly the ship codes. */
  lemma ShipCodePatternMeaning(s: string)
    ensures IsMatch(ShipCodePattern, s) <==> IsShipCode(s)
  {
    var atoms := [Literal('A'), Literal('E'), Literal('-'), Digit, Digit, Digit];
    assert Replicate(Digit, 3) == [Digit, Digit, Digit];
    assert Atoms(ShipCodePattern.elements) == atoms by {
      var es := ShipCodePattern.elements;
      assert es[1..][1..][1..][1..] == [];
      assert Atoms(es[3..]) == [Digit, Digit, Digit] by { assert es[3..][1..] == []; }
    }
    MatchAtomsCharacterised(atoms, s);
    if IsShipCode(s) {
      assert forall k :: 0 <= k < 6 ==> AtomMatches(atoms[k], s[k]);
    }
  }

  /** A validation verdict: the bool IsValid returns and its out-parameter errorMessage. */
  datatype Check = Check(valid: bool, errorMessage: string)

  /** ShipCodeValidation.IsValid(value, out errorMessage). */
  function IsValid(v: Value): (r: Check)
    ensures r.valid <==> r.errorMessage == ""
    ensures r.valid <==> v.Str? && IsShipCode(v.s)
    ensures IsMissing(v) ==> r == Check(false, REQUIRED_MESSAGE)
    ensures !IsMissing(v) && !r.valid ==> r.errorMessage == PATTERN_MESSAGE
  {
    ShipCodePatternMeaning(ToText(v));
    if v.Null? || IsBlank(ToText(v)) then
      Check(false, REQUIRED_MESSAGE)
    else if v.Str? && IsMatch(ShipCodePattern, v.s) then
      Check(true, "")
    else
      Check(false, PATTERN_MESSAGE)
  }

  /** A ValidationResult: null (ValidationResult.Success) or an error with its message. */
  datatype ValidationResult = Success | Error(message: string)

  /** ValidShipCodeAttribute.IsValid: Success exactly when ShipCodeValidation accepts, and
      otherwise an error carrying the message ShipCodeValidation produced. */
  function ValidShipCodeAttribute(v: Value): (r: ValidationResult)
    ensures r.Success? <==> v.Str? && IsShipCode(v.s)
    ensures r.Error? ==> r.message == IsValid(v).errorMessage && r.message != ""
  {
    var check := IsValid(v);
    if !check.valid then Error(check.errorMessage) else Success
  }

  /** The attribute's own unit tests: two valid codes and three invalid ones. */
  lemma AttributeTestCases()
    ensures ValidShipCodeAttribute(Str("AE-001")) == Success
    ensures ValidShipCodeAttribute(Str("AE-002")) == Success
    ensures ValidShipCodeAttribute(Str("INVALID CODE")).Error?
    ensures ValidShipCodeAttribute(Str("123")).Error?
    ensures ValidShipCodeAttribute(Str("!@#$%")).Error?
  {
    assert DecimalDigitZeros[0] == 0x30;
    assert IsShipCode("AE-001") && IsShipCode("AE-002");
  }

  /** Consequences of the .NET regex semantics: `$` lets one final '\n' through but not two
      or a trailing space, a non-ASCII decimal digit satisfies \d (here ARABIC-INDIC DIGIT
      ZERO and ONE), and a letter does not. */
  lemma DotNetRegexSemantics()
    ensures IsValid(Str("AE-001\n")).valid
    ensures !IsValid(Str("AE-001\n\n")).valid
    ensures !IsValid(Str("AE-001 ")).valid
    ensures IsValid(Str("AE-٠٠١")).valid
    ensures !IsValid(Str("AE-00A")).valid
  {
    assert DecimalDigitZeros[0] == 0x30 && DecimalDigitZeros[1] == 0x660;
    assert IsShipCode("AE-001\n");
    assert IsShipCode("AE-٠٠١");
    assert !IsDecimalDigit('A');
  }

  /** A non-string whose ToString() looks like a ship code is still rejected, with the
      pattern message: the regex is only tried on strings. */
  lemma NonStringIsRejected(text: string)
    requires IsShipCode(text)
    ensures IsValid(Scalar(text)) == Check(false, PATTERN_MESSAGE)
    ensures IsValid(Sequence([], text)) == Check(false, PATTERN_MESSAGE)
  {
    assert !IsWhiteSpace(text[0]);
  }
}
