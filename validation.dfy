/**
 * The per-field checks the form runs on every edit: the name rule shared by
 * "Nom" and "Prénom", and the height rule run on the digits-only text.
 */
module Validation {
  import opened KotlinText

  const MinimumLengthMessage: string := "Minimum 3 caractères"
  const NoDigitsMessage: string := "Pas de chiffres autorisés"

  const InvalidHeightMessage: string := "Taille invalide"
  const HeightTooLargeMessage: string := "Taille trop grande (max 250 cm)"
  const HeightTooSmallMessage: string := "Taille trop petite (min 50 cm)"

  /** Smallest and largest accepted height, in centimetres. */
  const MinHeight: int := 50
  const MaxHeight: int := 250

  // ---------------------------------------------------------------------------
  // Name rule
  // ---------------------------------------------------------------------------

  /** The error shown under a name field: the length rule is checked first, on the raw text. */
  function NameError(s: string): string {
    if |s| < 3 then MinimumLengthMessage
    else if HasDigit(s) then NoDigitsMessage
    else ""
  }

  /** A name the edit check accepts. */
  predicate NameAccepted(s: string) {
    |s| >= 3 && !HasDigit(s)
  }

  /**
   * Short text always reports its length, even with digits in it; text of
   * three or more characters reports digits; the error is empty exactly
   * for accepted names.
   */
  lemma NameErrorCases(s: string)
    ensures |s| < 3 ==> NameError(s) == MinimumLengthMessage
    ensures |s| >= 3 && HasDigit(s) ==> NameError(s) == NoDigitsMessage
    ensures NameError(s) == "" <==> NameAccepted(s)
  {
  }

  /** Three spaces pass the edit check: only the submit gate's blank test stops them. */
  lemma BlankNamePassesEditCheck()
    ensures NameError("   ") == "" && IsBlank("   ")
  {
    assert !HasDigit("   ") by {
      forall i | 0 <= i < 3 ensures !IsDigit("   "[i]) {
      }
    }
  }

  // ---------------------------------------------------------------------------
  // Height rule
  // ---------------------------------------------------------------------------

  /** The height a text stands for, when it parses to an accepted value. */
  predicate HeightAccepted(s: string) {
    ToIntOrNull(s).Some? && MinHeight <= ToIntOrNull(s).value <= MaxHeight
  }

  /** The error shown under the height field, computed on the filtered text. */
  function HeightError(f: string): string {
    if IsBlank(f) || ToIntOrNull(f).None? || ToIntOrNull(f).value <= 0 then InvalidHeightMessage
    else if ToIntOrNull(f).value > MaxHeight then HeightTooLargeMessage
    else if ToIntOrNull(f).value < MinHeight then HeightTooSmallMessage
    else ""
  }

  /**
   * On the digits kept from any typed text: the error is empty exactly when
   * the value is in 50..250; "invalid" for no digits, for a value of 0 and
   * for a value past `Int.MAX_VALUE`; "too large" above 250; "too small"
   * for 1..49.
   */
  lemma HeightErrorCases(raw: string)
    ensures var f := FilterDigits(raw);
      && (HeightError(f) == "" <==> HeightAccepted(f))
      && (HeightError(f) == "" <==> (f != [] && MinHeight <= DigitsValue(f) <= MaxHeight))
      && ((HeightError(f) == InvalidHeightMessage) <==>
          (f == [] || DigitsValue(f) == 0 || DigitsValue(f) > IntMax))
      && ((HeightError(f) == HeightTooLargeMessage) <==>
          (f != [] && MaxHeight < DigitsValue(f) <= IntMax))
      && ((HeightError(f) == HeightTooSmallMessage) <==>
          (f != [] && 1 <= DigitsValue(f) < MinHeight))
  {
    var f := FilterDigits(raw);
    DigitsBlankOnlyWhenEmpty(f);
    ToIntOrNullOfDigits(f);
  }

  /** Letters typed among the digits change nothing: "1a7b0" is checked as "170". */
  lemma HeightIgnoresNonDigits()
    ensures FilterDigits("1a7b0") == "170"
    ensures HeightError(FilterDigits("1a7b0")) == ""
  {
    assert FilterDigits("0") == "0";
    assert FilterDigits("b0") == "0" by { assert "b0"[1..] == "0"; }
    assert FilterDigits("7b0") == "70" by { assert "7b0"[1..] == "b0"; }
    assert FilterDigits("a7b0") == "70" by { assert "a7b0"[1..] == "7b0"; }
    assert FilterDigits("1a7b0") == "170" by { assert "1a7b0"[1..] == "a7b0"; }
    assert DigitsValue("170") == 170 by {
      assert "170"[..2] == "17" && "17"[..1] == "1";
    }
    HeightErrorCases("1a7b0");
  }
}
