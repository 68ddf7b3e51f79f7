/**
 * The password rules of the sign-up form: five criteria, a strength that
 * counts them, the colour of the strength meter, the order of the checks on
 * submit, and when the submit button is disabled.
 */
module Signup {

  predicate IsUpper(c: char) { 'A' <= c <= 'Z' }
  predicate IsLower(c: char) { 'a' <= c <= 'z' }
  predicate IsDigitChar(c: char) { '0' <= c <= '9' }

  /** `/[A-Z]/.test(s)` and its siblings: some character of the class occurs. */
  predicate HasUppercase(p: string) { exists i :: 0 <= i < |p| && IsUpper(p[i]) }
  predicate HasLowercase(p: string) { exists i :: 0 <= i < |p| && IsLower(p[i]) }
  predicate HasNumber(p: string) { exists i :: 0 <= i < |p| && IsDigitChar(p[i]) }
  predicate HasSpecialChar(p: string) { exists i :: 0 <= i < |p| && !IsUpper(p[i]) && !IsLower(p[i]) && !IsDigitChar(p[i]) }
  predicate HasMinLength(p: string) { |p| >= 8 }

  function B(b: bool): nat { if b then 1 else 0 }

  /** The number of criteria the password meets. */
  function PasswordStrength(p: string): (n: nat)
    ensures n <= 5
    ensures n == 5 <==> HasMinLength(p) && HasUppercase(p) && HasLowercase(p) && HasNumber(p) && HasSpecialChar(p)
    ensures n == 0 <==> !HasMinLength(p) && !HasUppercase(p) && !HasLowercase(p) && !HasNumber(p) && !HasSpecialChar(p)
  {
    B(HasMinLength(p)) + B(HasUppercase(p)) + B(HasLowercase(p)) + B(HasNumber(p)) + B(HasSpecialChar(p))
  }

  /** The empty password meets no criterion, and any other meets at least one character class. */
  lemma {:induction false} NonEmptyHasStrength(p: string)
    ensures p == [] <==> PasswordStrength(p) == 0
  {
    if p != [] {
      var c := p[0];
      if IsUpper(c) { assert HasUppercase(p); }
      else if IsLower(c) { assert HasLowercase(p); }
      else if IsDigitChar(c) { assert HasNumber(p); }
      else { assert HasSpecialChar(p); }
    }
  }

  /** `getPasswordStrengthColor`. */
  function StrengthColor(p: string): (c: string)
    ensures c == "bg-muted" <==> p == []
    ensures c == "bg-red-500" <==> p != [] && PasswordStrength(p) <= 2
    ensures c == "bg-yellow-500" <==> 3 <= PasswordStrength(p) <= 4
    ensures c == "bg-green-500" <==> PasswordStrength(p) == 5
  {
    NonEmptyHasStrength(p);
    if |p| == 0 then "bg-muted"
    else if PasswordStrength(p) <= 2 then "bg-red-500"
    else if PasswordStrength(p) <= 4 then "bg-yellow-500"
    else "bg-green-500"
  }

  datatype SubmitOutcome =
    | PasswordsDoNotMatch
    | TooWeak
    /** `signup` is called with the form's fields. */
    | SignupCalled

  /** `handleSubmit`: a mismatch is reported before weakness; only a matching password of strength 3 or more is sent. */
  function Submit(password: string, confirmPassword: string): (r: SubmitOutcome)
    ensures r == PasswordsDoNotMatch <==> password != confirmPassword
    ensures r == TooWeak <==> password == confirmPassword && PasswordStrength(password) < 3
    ensures r == SignupCalled <==> password == confirmPassword && PasswordStrength(password) >= 3
  {
    if password != confirmPassword then PasswordsDoNotMatch
    else if PasswordStrength(password) < 3 then TooWeak
    else SignupCalled
  }

  /** The error line a submission leaves; empty exactly when `signup` was called. */
  function ErrorText(r: SubmitOutcome): (text: string)
    ensures text == "" <==> r == SignupCalled
  {
    match r
    case PasswordsDoNotMatch => "Passwords do not match"
    case TooWeak => "Password is too weak. Please make it stronger."
    case SignupCalled => ""
  }

  /** The submit button's `disabled` condition. */
  predicate SubmitDisabled(isLoading: bool, password: string, confirmPassword: string) {
    isLoading || password != confirmPassword || PasswordStrength(password) < 3
  }

  /** While nothing is loading, the button is enabled exactly when submitting would call `signup`. */
  lemma {:induction false} EnabledExactlyWhenSubmitSends(password: string, confirmPassword: string)
    ensures !SubmitDisabled(false, password, confirmPassword) <==> Submit(password, confirmPassword) == SignupCalled
  {
  }

  /** A password shorter than eight characters can still pass with the four character classes. */
  lemma ShortPasswordCanPass()
    ensures PasswordStrength("aA1!") == 4 && Submit("aA1!", "aA1!") == SignupCalled
  {
    assert IsLower("aA1!"[0]) && IsUpper("aA1!"[1]) && IsDigitChar("aA1!"[2]);
    assert !IsUpper("aA1!"[3]) && !IsLower("aA1!"[3]) && !IsDigitChar("aA1!"[3]);
  }
}
