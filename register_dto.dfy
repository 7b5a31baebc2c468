/** The registration request body and its validation rules. */
module RegisterDtos {
  import opened Wrappers
  import opened Text

  datatype RegisterDto = RegisterDto(
    email: string,
    company_name: string,
    mobileno: string,
    assessment: string,
    selectfacilitator: Option<string>)

  /** The two assessment types. */
  const CiiAssessment: string := "cii"
  const FacilitatorAssessment: string := "facilitator"

  /** `/^[6-9]\d{9}$/`: ten digits, the first of them 6, 7, 8 or 9. */
  predicate IsMobileNumber(s: string)
  {
    |s| == 10 && '6' <= s[0] <= '9' && forall i :: 1 <= i < |s| ==> IsDigit(s[i])
  }

  /**
   * All the field rules: a non-empty email the (abstract) email check accepts,
   * a company name of 2 to 50 characters as `MinLength` and `MaxLength`
   * count them, a mobile number, an assessment of
   * 'cii' or 'facilitator', and a non-empty facilitator selection when, and
   * only when, the assessment is 'facilitator'.
   */
  predicate IsValid(dto: RegisterDto, isEmail: string -> bool)
  {
    && dto.email != "" && isEmail(dto.email)
    && 2 <= ValidatorLength(dto.company_name) <= 50
    && dto.mobileno != "" && IsMobileNumber(dto.mobileno)
    && dto.assessment in {CiiAssessment, FacilitatorAssessment}
    && (dto.assessment == FacilitatorAssessment ==> dto.selectfacilitator.Some? && dto.selectfacilitator.value != "")
  }

  /** A mobile number is all digits; in particular it is never empty, so IsNotEmpty adds nothing to the pattern. */
  lemma MobileNumberIsTenDigits(s: string)
    requires IsMobileNumber(s)
    ensures |s| == 10 && forall i :: 0 <= i < |s| ==> IsDigit(s[i])
    ensures s != ""
  {
  }

  /** The mobile pattern rejects a leading 5 and an eleventh digit. */
  lemma MobileNumberExamples()
    ensures IsMobileNumber("9876543210")
    ensures !IsMobileNumber("5876543210")
    ensures !IsMobileNumber("98765432101")
  {
  }

  /** A name of two code points, one of them a variation selector, is too short for `MinLength(2)`. */
  lemma VariationSelectorShortensName(dto: RegisterDto, isEmail: string -> bool)
    requires dto.company_name == "G\U{FE0F}"
    ensures |dto.company_name| == 2 && ValidatorLength(dto.company_name) == 1
    ensures !IsValid(dto, isEmail)
  {
    assert dto.company_name[..1] == "G";
  }

  /** For a 'cii' registration the facilitator selection is not checked at all. */
  lemma SelectionIgnoredForCii(dto: RegisterDto, isEmail: string -> bool, selection: Option<string>)
    requires dto.assessment == CiiAssessment
    ensures IsValid(dto, isEmail) == IsValid(dto.(selectfacilitator := selection), isEmail)
  {
  }

  /** For a 'facilitator' registration a missing or empty selection is refused. */
  lemma SelectionRequiredForFacilitator(dto: RegisterDto, isEmail: string -> bool)
    requires dto.assessment == FacilitatorAssessment
    requires dto.selectfacilitator.None? || dto.selectfacilitator.value == ""
    ensures !IsValid(dto, isEmail)
  {
  }
}
