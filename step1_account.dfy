/** Step 1 of the artist wizard: the account fields and their checks. */
module AccountStep {

  import opened Types
  import opened EcmaScript
  import opened Registration
  import opened Wizard

  const MIN_PASSWORD_LENGTH := 6

  const MSG_REQUIRED := "Todos los campos son obligatorios"
  const MSG_PASSWORD_MISMATCH := "Las contraseñas no coinciden"
  const MSG_PASSWORD_SHORT := "La contraseña debe tener al menos 6 caracteres"
  const MSG_EMAIL_INVALID := "Email inválido"

  /** A character of the class `[^\s@]`. */
  predicate IsPlain(c: char) {
    c != '@' && !IsWhitespace(c)
  }

  /** The email pattern `^[^\s@]+@[^\s@]+\.[^\s@]+$` as the regular expression
      reads it: an `@` at `i` and a `.` at `j` split the text into three non-empty
      runs, and every other character is in `[^\s@]`. */
  ghost predicate MatchesEmailPattern(s: string) {
    exists i, j | 0 < i && i + 1 < j && j + 1 < |s| ::
      s[i] == '@' && s[j] == '.' && forall k | 0 <= k < |s| && k != i :: IsPlain(s[k])
  }

  /** The same test, computed: no whitespace, one `@` with text before it, and a
      domain after it holding a `.` that is neither its first nor its last character. */
  predicate IsEmailShape(s: string) {
    NoWhitespace(s) && '@' in s &&
    var i := IndexOf(s, '@');
    var domain := s[i + 1..];
    i > 0 && '@' !in domain && |domain| >= 3 && '.' in domain[1..|domain| - 1]
  }

  lemma EmailShapeMatchesPattern(s: string)
    ensures IsEmailShape(s) <==> MatchesEmailPattern(s)
  {
    if IsEmailShape(s) {
      ShapeMatchesPattern(s);
    }
    if MatchesEmailPattern(s) {
      PatternHasShape(s);
    }
  }

  /** The computed test accepts only texts the pattern matches. */
  lemma ShapeMatchesPattern(s: string)
    requires IsEmailShape(s)
    ensures MatchesEmailPattern(s)
  {
    var i := IndexOf(s, '@');
    var domain := s[i + 1..];
    var inner := domain[1..|domain| - 1];
    var m :| 0 <= m < |inner| && inner[m] == '.';
    var j := i + 2 + m;
    assert s[j] == '.';
    forall k | 0 <= k < |s| && k != i
      ensures IsPlain(s[k])
    {
      assert !IsWhitespace(s[k]);
      if k < i {
        assert s[k] == s[..i][k];
      } else {
        assert s[k] == domain[k - i - 1];
      }
    }
  }

  /** Every text the pattern matches passes the computed test. */
  lemma PatternHasShape(s: string)
    requires MatchesEmailPattern(s)
    ensures IsEmailShape(s)
  {
    var i, j :| 0 < i && i + 1 < j && j + 1 < |s| &&
      s[i] == '@' && s[j] == '.' && forall k | 0 <= k < |s| && k != i :: IsPlain(s[k]);
    assert NoWhitespace(s) by {
      assert !IsWhitespace('@');
    }
    assert '@' in s;
    assert IndexOf(s, '@') == i by {
      assert '@' !in s[..i] by {
        forall k | 0 <= k < i
          ensures s[..i][k] != '@'
        {
          assert s[..i][k] == s[k];
        }
      }
    }
    var domain := s[i + 1..];
    assert '@' !in domain by {
      forall k | 0 <= k < |domain|
        ensures domain[k] != '@'
      {
        assert domain[k] == s[i + 1 + k];
      }
    }
    var inner := domain[1..|domain| - 1];
    assert inner[j - i - 2] == '.';
  }

  /** `handleSubmit`: the guards in source order, each with an early return, and
      on success the patch of the three fields. */
  function AccountResult(email: string, password: string, confirmPassword: string): (r: StepResult)
    ensures r.Accepted? <==>
      email != "" && password == confirmPassword && |password| >= MIN_PASSWORD_LENGTH &&
      MatchesEmailPattern(email)
    ensures r == Rejected(MSG_REQUIRED) <==> email == "" || password == "" || confirmPassword == ""
    ensures r == Rejected(MSG_PASSWORD_MISMATCH) <==>
      email != "" && password != "" && confirmPassword != "" && password != confirmPassword
    ensures r == Rejected(MSG_PASSWORD_SHORT) <==>
      email != "" && password != "" && password == confirmPassword && |password| < MIN_PASSWORD_LENGTH
    ensures r == Rejected(MSG_EMAIL_INVALID) <==>
      email != "" && password == confirmPassword && |password| >= MIN_PASSWORD_LENGTH &&
      !MatchesEmailPattern(email)
    ensures r.Accepted? ==>
      r.patch == map[Email := Text(email), Password := Text(password), ConfirmPassword := Text(confirmPassword)]
    ensures r.Accepted? ==> r.patch.Keys == StepFields(1) && Conforms(r.patch)
  {
    EmailShapeMatchesPattern(email);
    if email == "" || password == "" || confirmPassword == "" then Rejected(MSG_REQUIRED)
    else if password != confirmPassword then Rejected(MSG_PASSWORD_MISMATCH)
    else if |password| < MIN_PASSWORD_LENGTH then Rejected(MSG_PASSWORD_SHORT)
    else if !IsEmailShape(email) then Rejected(MSG_EMAIL_INVALID)
    else Accepted(map[Email := Text(email), Password := Text(password), ConfirmPassword := Text(confirmPassword)])
  }

  /** A password of exactly the minimum length passes the length guard; one
      character fewer is refused with the length message. */
  lemma PasswordLengthBoundary()
    ensures AccountResult("a@b.com", "abc123", "abc123").Accepted?
    ensures AccountResult("a@b.com", "abc12", "abc12") == Rejected(MSG_PASSWORD_SHORT)
  {
    var s := "a@b.com";
    assert s[1] == '@' && s[3] == '.';
    assert forall k | 0 <= k < |s| && k != 1 :: IsPlain(s[k]);
  }

  class Step1Account {
    var email: string
    var password: string
    var confirmPassword: string
    var error: string

    /** The fields start from the record's values, or empty. */
    constructor (data: Record)
      ensures email == TextOr(data, Email, "") && password == TextOr(data, Password, "")
      ensures confirmPassword == TextOr(data, ConfirmPassword, "") && error == ""
    {
      email := TextOr(data, Email, "");
      password := TextOr(data, Password, "");
      confirmPassword := TextOr(data, ConfirmPassword, "");
      error := "";
    }

    /** `handleSubmit`, wired to the wizard's `onNext`: a rejection shows its
        message and leaves the wizard alone; an acceptance clears the message,
        merges the patch and moves to step 2. */
    method HandleSubmit(wizard: ArtistRegistrationWizard)
      requires wizard.Valid() && wizard.currentStep == 1
      modifies this`error, wizard
      ensures wizard.Valid()
      ensures match AccountResult(email, password, confirmPassword)
        case Rejected(m) =>
          error == m && wizard.formData == old(wizard.formData) && wizard.currentStep == 1
        case Accepted(patch) =>
          error == "" && wizard.formData == Merge(old(wizard.formData), patch) && wizard.currentStep == 2
      ensures old(wizard.Populated()) ==> wizard.Populated()
    {
      error := "";
      var result := AccountResult(email, password, confirmPassword);
      match result
      case Rejected(m) =>
        error := m;
      case Accepted(patch) =>
        wizard.OnNext(patch);
    }
  }
}
