/**
 * The phone-number guard: an empty number, then a number of the wrong length,
 * then a digit list holding 0 or 1, each raises its own error, in that order.
 */
module Validator {
  import opened Wrappers
  import opened RubyString
  import opened Constants

  datatype Outcome = Ok | MissingInput | BadLength | BadDigit

  /** The exception class each outcome raises. */
  datatype ErrorClass = RequiredArgumentMissingError | MalformattedArgumentError

  /** True when `phAry & FORBIDDEN_NOS` is non-empty. */
  predicate HasForbiddenDigit(phAry: seq<string>) {
    ArrayAnd(phAry, FORBIDDEN_NOS) != []
  }

  /** The guard for a given number length (the source's is `PH_LENGTH`). */
  function ValidateWithLength(phNo: string, phAry: seq<string>, phLength: int): (r: Outcome)
    ensures r == MissingInput <==> phNo == []
    ensures r == BadLength <==> phNo != [] && |phNo| != phLength
    ensures r == BadDigit <==> phNo != [] && |phNo| == phLength && exists i :: 0 <= i < |phAry| && phAry[i] in FORBIDDEN_NOS
    ensures r == Ok <==> phNo != [] && |phNo| == phLength && forall i :: 0 <= i < |phAry| ==> phAry[i] !in FORBIDDEN_NOS
  {
    if phNo == [] then MissingInput
    else if |phNo| != phLength then BadLength
    else if !HasForbiddenDigit(phAry) then Ok
    else
      assert ArrayAnd(phAry, FORBIDDEN_NOS)[0] in phAry;
      BadDigit
  }

  /** `validate(ph_no, ph_ary)`. */
  function Validate(phNo: string, phAry: seq<string>): Outcome {
    ValidateWithLength(phNo, phAry, PH_LENGTH)
  }

  /** `validate` as written, with the source's `PH_LENGTH` of 9. */
  function ValidateAsWritten(phNo: string, phAry: seq<string>): Outcome {
    ValidateWithLength(phNo, phAry, PH_LENGTH_AS_WRITTEN)
  }

  function Raises(o: Outcome): (c: Option<ErrorClass>)
    ensures c.None? <==> o == Ok
    ensures c == Some(RequiredArgumentMissingError) <==> o == MissingInput
  {
    match o
    case Ok => None
    case MissingInput => Some(RequiredArgumentMissingError)
    case BadLength => Some(MalformattedArgumentError)
    case BadDigit => Some(MalformattedArgumentError)
  }

  /**
   * The message argument passed to `raise`, looked up in `ERRORS`; nil for the
   * absent `ph_length` key (Ruby then uses the class name as the message).
   */
  function Message(o: Outcome): (m: Option<string>)
    ensures o == MissingInput ==> m == Some("Please provide a phone number")
    ensures o == BadDigit ==> m == Some("Cannot contain 0 or 1 in the phone number")
    ensures o == BadLength ==> m == None
  {
    var key := match o
      case Ok => ""
      case MissingInput => "missing_ph"
      case BadLength => "ph_length"
      case BadDigit => "malformed_ph_no";
    if o != Ok && key in ERRORS then Some(ERRORS[key]) else None
  }

  /** An empty number is missing, whatever the digit list holds. */
  lemma EmptyIsMissing(phAry: seq<string>)
    ensures Validate("", phAry) == MissingInput
    ensures Raises(Validate("", phAry)) == Some(RequiredArgumentMissingError)
  {
  }

  /** A non-empty number of the wrong length gets the length error. */
  lemma WrongLengthIsBadLength(phNo: string, phAry: seq<string>)
    requires phNo != [] && |phNo| != PH_LENGTH
    ensures Validate(phNo, phAry) == BadLength
    ensures Raises(Validate(phNo, phAry)) == Some(MalformattedArgumentError)
  {
  }

  /** The length is checked before the digits: a short number holding 0 is a length error. */
  lemma LengthCheckedBeforeDigits(phNo: string)
    requires phNo != [] && |phNo| != PH_LENGTH && '0' in phNo
    ensures Validate(phNo, Chars(phNo)) == BadLength
    ensures HasForbiddenDigit(Chars(phNo))
  {
    var i :| 0 <= i < |phNo| && phNo[i] == '0';
    assert Chars(phNo)[i] == "0" && "0" in FORBIDDEN_NOS;
    assert "0" in ArrayAnd(Chars(phNo), FORBIDDEN_NOS);
  }

  /**
   * For a number given with its own characters as the digit list, acceptance
   * means: the right length and no character 0 or 1; and a right-length
   * number holding 0 or 1 is a digit error.
   */
  lemma ValidateOwnChars(phNo: string)
    ensures Validate(phNo, Chars(phNo)) == Ok <==> |phNo| == PH_LENGTH && '0' !in phNo && '1' !in phNo
    ensures |phNo| == PH_LENGTH && ('0' in phNo || '1' in phNo) ==> Validate(phNo, Chars(phNo)) == BadDigit
  {
    forall i | 0 <= i < |phNo|
      ensures Chars(phNo)[i] in FORBIDDEN_NOS <==> phNo[i] == '0' || phNo[i] == '1'
    {
      assert Chars(phNo)[i] == [phNo[i]];
    }
  }

  /** The numbers the validator's tests expect to be rejected, each with its error. */
  lemma ValidatorRejects()
    ensures Validate("", []) == MissingInput
    ensures Validate("228266868", Chars("228266868")) == BadLength
    ensures Validate("2", Chars("2")) == BadLength
    ensures Validate("2282668681", Chars("2282668681")) == BadDigit
    ensures Validate("2282068687", Chars("2282068687")) == BadDigit
  {
    ValidateOwnChars("2282668681");
    assert "2282668681"[9] == '1';
    ValidateOwnChars("2282068687");
    assert "2282068687"[4] == '0';
  }

  /** The example number of the converter is accepted. */
  lemma ValidatorAccepts()
    ensures Validate("2282668687", Chars("2282668687")) == Ok
  {
    ValidateOwnChars("2282668687");
  }

  /** With the source's `PH_LENGTH` of 9 the test's nine-digit number passes. */
  lemma AsWrittenAcceptsNineDigits()
    ensures ValidateAsWritten("228266868", Chars("228266868")) == Ok
    ensures ValidateAsWritten("2282668687", Chars("2282668687")) == BadLength
  {
    forall i | 0 <= i < 9
      ensures Chars("228266868")[i] !in FORBIDDEN_NOS
    {
      assert Chars("228266868")[i] == ["228266868"[i]];
    }
  }
}
