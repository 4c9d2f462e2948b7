/** ValidShipCodesAttribute (ValidShipCodesAttribute.cs): a list of ship codes is valid when
    every element passes ShipCodeValidation.IsValid, and the first element that does not is
    named in the error. */
module ValidShipCodes {
  import opened DotNetText
  import opened ShipCodeValidation
  import opened Collections

  /** The elements a `foreach` over an IEnumerable value visits, or nothing when the value is not
      an IEnumerable (null among them). A string is enumerated as its characters, each a boxed
      char whose ToString() is that one character. */
  function Enumerate(v: Value): Option<seq<Value>> {
    match v
    case Null => None
    case Str(s) => Some(seq(|s|, i requires 0 <= i < |s| => Scalar([s[i]])))
    case Sequence(items, _) => Some(items)
    case Scalar(_) => None
  }

  /** The position of the first element ShipCodeValidation rejects, if any. */
  function FirstInvalid(items: seq<Value>): Option<nat> {
    FirstIndex(items, (v: Value) => !IsValid(v).valid)
  }

  /** The message `Invalid ship code '{code}': {errorMessage}`. */
  function InvalidCodeMessage(code: Value): string {
    "Invalid ship code '" + ToText(code) + "': " + IsValid(code).errorMessage
  }

  /** ValidShipCodesAttribute.IsValid. */
  function IsValidValue(v: Value): (r: ValidationResult)
    ensures Enumerate(v).None? ==> r == Error("Invalid ship codes list.")
    ensures r.Success? <==>
      (Enumerate(v).Some? && forall j :: 0 <= j < |Enumerate(v).value| ==> IsValid(Enumerate(v).value[j]).valid)
    ensures r.Error? && Enumerate(v).Some? ==>
      exists i :: 0 <= i < |Enumerate(v).value| && FirstInvalid(Enumerate(v).value) == Some(i) &&
        r.message == InvalidCodeMessage(Enumerate(v).value[i])
  {
    match Enumerate(v)
    case None => Error("Invalid ship codes list.")
    case Some(codes) =>
      match FirstInvalid(codes)
      case None => Success
      case Some(i) => Error(InvalidCodeMessage(codes[i]))
  }

  /** An empty list passes; a list passes exactly when each of its codes does. */
  lemma ListVerdict(codes: seq<string>)
    ensures IsValidValue(Sequence([], "")) == Success
    ensures var items := seq(|codes|, i requires 0 <= i < |codes| => Str(codes[i]));
      IsValidValue(Sequence(items, "")).Success? <==> forall j :: 0 <= j < |codes| ==> IsShipCode(codes[j])
  {
    var items := seq(|codes|, i requires 0 <= i < |codes| => Str(codes[i]));
    assert forall j :: 0 <= j < |codes| ==> items[j] == Str(codes[j]);
  }

  /** The first failure wins: after a valid code, an invalid one is the one reported, with its
      own message, whatever follows it. */
  lemma FirstFailureReported(good: string, bad: Value, rest: seq<Value>)
    requires IsShipCode(good) && !IsValid(bad).valid
    ensures IsValidValue(Sequence([Str(good), bad] + rest, "")) ==
            Error("Invalid ship code '" + ToText(bad) + "': " + IsValid(bad).errorMessage)
  {
    var items := [Str(good), bad] + rest;
    assert items[0] == Str(good) && items[1..] == [bad] + rest;
    assert FirstInvalid(items[1..]) == Some(0);
  }

  /** A bare string is enumerated character by character and no single character is a ship
      code, so the empty string passes and every other string fails on its first character. */
  lemma BareString(s: string)
    ensures s == [] ==> IsValidValue(Str(s)) == Success
    ensures s != [] ==>
      IsValidValue(Str(s)) == Error("Invalid ship code '" + [s[0]] + "': " +
                                    (if IsWhiteSpace(s[0]) then REQUIRED_MESSAGE else PATTERN_MESSAGE))
  {
    if s != [] {
      var items := Enumerate(Str(s)).value;
      assert items[0] == Scalar([s[0]]);
      assert ToText(items[0]) == [s[0]];
      assert IsBlank([s[0]]) <==> IsWhiteSpace(s[0]) by { assert [s[0]][0] == s[0]; }
      assert !IsValid(items[0]).valid;
      assert FirstInvalid(items) == Some(0);
    }
  }
}
