/** The password-change request body and its validation rules. */
module ChangePasswordDtos {
  import Text

  datatype ChangePasswordDto = ChangePasswordDto(current_password: string, new_password: string, confirmed: string)

  /** Characters `.` does not match in a JavaScript regular expression. */
  predicate IsLineTerminator(c: char)
  {
    c == '\n' || c == '\r' || c == '\U{2028}' || c == '\U{2029}'
  }

  predicate IsLowerLetter(c: char) { 'a' <= c <= 'z' }
  predicate IsUpperLetter(c: char) { 'A' <= c <= 'Z' }
  predicate IsDigitChar(c: char) { '0' <= c <= '9' }
  predicate IsSpecial(c: char) { c in "@$!%*#?&" }

  /** `[A-Za-z\d@$!%*#?&]`. */
  predicate IsAllowed(c: char)
  {
    IsLowerLetter(c) || IsUpperLetter(c) || IsDigitChar(c) || IsSpecial(c)
  }

  /** `^(?=.*[class])`: a character of the class occurs before the first line break. */
  predicate Lookahead(s: string, inClass: char -> bool)
  {
    exists i :: 0 <= i < |s| && inClass(s[i]) && forall j :: 0 <= j < i ==> !IsLineTerminator(s[j])
  }

  /**
   * The strength pattern `^(?=.*[a-z])(?=.*[A-Z])(?=.*\d)(?=.*[@$!%*#?&])[A-Za-z\d@$!%*#?&]`:
   * four lookaheads and one allowed first character. It has no end anchor.
   */
  predicate MatchesStrengthPattern(s: string)
  {
    && Lookahead(s, IsLowerLetter)
    && Lookahead(s, IsUpperLetter)
    && Lookahead(s, IsDigitChar)
    && Lookahead(s, IsSpecial)
    && |s| >= 1 && IsAllowed(s[0])
  }

  /** `MatchPasswordConstraint.validate`: the confirmation equals the new password. */
  predicate MatchPassword(confirmed: string, dto: ChangePasswordDto)
  {
    confirmed == dto.new_password
  }

  /**
   * All the field rules: three non-empty fields, a strong new password whose
   * length as `MinLength` counts it is at least 6, a matching confirmation.
   */
  predicate IsValid(dto: ChangePasswordDto)
  {
    && dto.current_password != ""
    && dto.new_password != "" && Text.ValidatorLength(dto.new_password) >= 6 && MatchesStrengthPattern(dto.new_password)
    && dto.confirmed != "" && MatchPassword(dto.confirmed, dto)
  }

  /** A valid new password has a lower-case letter, an upper-case letter, a digit and a special character. */
  lemma ValidNewPasswordHasEveryClass(dto: ChangePasswordDto)
    requires IsValid(dto)
    ensures |dto.new_password| >= 6 && dto.confirmed == dto.new_password
    ensures Text.ValidatorLength(dto.new_password) >= 6
    ensures exists i :: 0 <= i < |dto.new_password| && IsLowerLetter(dto.new_password[i])
    ensures exists i :: 0 <= i < |dto.new_password| && IsUpperLetter(dto.new_password[i])
    ensures exists i :: 0 <= i < |dto.new_password| && IsDigitChar(dto.new_password[i])
    ensures exists i :: 0 <= i < |dto.new_password| && IsSpecial(dto.new_password[i])
  {
  }

  /** Only the first character is restricted: "Aa1@" followed by a space and a tilde passes. */
  lemma TrailingCharactersUnrestricted()
    ensures MatchesStrengthPattern("Aa1@ ~")
  {
    var s := "Aa1@ ~";
    assert IsLowerLetter(s[1]);
    assert IsUpperLetter(s[0]);
    assert IsDigitChar(s[2]);
    assert IsSpecial(s[3]);
  }

  /** A required class that appears only after a line break does not count. */
  lemma ClassAfterLineBreakIsMissed()
    ensures !MatchesStrengthPattern("Aa@xyz\n1")
  {
    var s := "Aa@xyz\n1";
    forall i | 0 <= i < |s| && IsDigitChar(s[i])
      ensures exists j :: 0 <= j < i && IsLineTerminator(s[j])
    {
      assert i == 7 && IsLineTerminator(s[6]);
    }
  }

  /** A character of the class with no line break before it satisfies the lookahead. */
  lemma LookaheadAt(s: string, inClass: char -> bool, i: int)
    requires 0 <= i < |s| && inClass(s[i])
    requires forall j :: 0 <= j < i ==> !IsLineTerminator(s[j])
    ensures Lookahead(s, inClass)
  {
  }

  /**
   * Variation selectors do not count towards `MinLength`: "Aa1!" followed by
   * two U+FE0F has six code points and matches the pattern, yet is too short.
   */
  lemma VariationSelectorsAreNotCounted()
    ensures var s := "Aa1!\U{FE0F}\U{FE0F}";
      && |s| == 6 && MatchesStrengthPattern(s)
      && Text.ValidatorLength(s) == 4
      && !IsValid(ChangePasswordDto("current", s, s))
  {
    var s := "Aa1!\U{FE0F}\U{FE0F}";
    assert MatchesStrengthPattern(s) by {
      assert forall j :: 0 <= j < |s| ==> !IsLineTerminator(s[j]);
      LookaheadAt(s, IsUpperLetter, 0);
      LookaheadAt(s, IsLowerLetter, 1);
      LookaheadAt(s, IsDigitChar, 2);
      LookaheadAt(s, IsSpecial, 3);
    }
    assert Text.ValidatorLength(s) == 4 by {
      var head := "Aa1!";
      assert Text.ValidatorLength(head) == |head|;
      assert s[..5][..4] == head && Text.IsVariationSelector(s[..5][4]);
      assert Text.IsVariationSelector(s[5]);
    }
  }

  /** A password whose first character is outside the class fails even when every class is present. */
  lemma FirstCharacterIsRestricted()
    ensures !MatchesStrengthPattern(" Aa1@")
  {
  }
}
