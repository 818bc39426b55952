/** The sign-up page's own checks: what happens when the form is submitted, and the
    password-strength meter shown under the password field. */
module SignupForm {
  import opened Common
  import Auth

  /** The form's minimum, the same as the route's. */
  const MinLength := 6
  const StrongLength := 8

  /** What submitting the form does: report a mismatch, report a short password,
      or send the sign-up request. */
  datatype Submission = Mismatch | TooShort | Send(request: Auth.AuthRequest)

  const MismatchMessage := "Les mots de passe ne correspondent pas"
  const TooShortMessage := "Le mot de passe doit contenir au moins 6 caractères"

  /** `handleSubmit` before the request: the mismatch is checked first, then the
      length; only a password that passes both is sent. */
  function Submit(email: string, password: string, confirmPassword: string,
                  firstName: string, lastName: string): (r: Submission)
    ensures password != confirmPassword <==> r == Mismatch
    ensures r == TooShort <==> password == confirmPassword && |password| < MinLength
    ensures r.Send? ==> r.request == Auth.AuthRequest(Some(email), Some(password), Some(firstName),
                                                      Some(lastName), Some("signup"))
  {
    if password != confirmPassword then Mismatch
    else if |password| < MinLength then TooShort
    else Send(Auth.AuthRequest(Some(email), Some(password), Some(firstName), Some(lastName), Some("signup")))
  }

  /** A request the page sends always clears the route's own length check. */
  lemma SentPasswordsMeetRouteMinimum(email: string, password: string, confirmPassword: string,
                                      firstName: string, lastName: string)
    requires Submit(email, password, confirmPassword, firstName, lastName).Send?
    ensures var request := Submit(email, password, confirmPassword, firstName, lastName).request;
      request.password.Some? && |request.password.value| >= Auth.MinPasswordLength &&
      Truthy(request.password) && Truthy(request.kind)
  {
  }

  predicate HasUppercase(s: string)
  {
    exists i :: 0 <= i < |s| && 'A' <= s[i] <= 'Z'
  }

  predicate HasDigit(s: string)
  {
    exists i :: 0 <= i < |s| && '0' <= s[i] <= '9'
  }

  /** The three bars and the text under them. */
  datatype Meter = Meter(bar1: bool, bar2: bool, bar3: bool, text: string)

  const WeakText := "Minimum 6 caractères"
  const AcceptableText := "Mot de passe acceptable"
  const StrongText := "Mot de passe fort"

  /** The text is the three conditional fragments side by side; a false condition
      renders nothing. */
  function MeterText(length: nat): string
  {
    (if length < MinLength then WeakText else "") +
    (if MinLength <= length < StrongLength then AcceptableText else "") +
    (if length >= StrongLength then StrongText else "")
  }

  /** The meter, shown only for a non-empty password. */
  function StrengthMeter(password: string): (r: Option<Meter>)
    ensures r.None? <==> password == ""
    ensures r.Some? ==> (r.value.bar1 <==> |password| >= MinLength)
    ensures r.Some? ==> (r.value.bar2 <==> |password| >= StrongLength)
    ensures r.Some? ==> (r.value.bar3 <==> HasUppercase(password) && HasDigit(password))
  {
    if password == "" then None
    else
      var n := |password|;
      Some(Meter(n >= MinLength, n >= StrongLength, HasUppercase(password) && HasDigit(password), MeterText(n)))
  }

  /** The second bar never lights without the first. */
  lemma SecondBarNeedsFirst(password: string)
    requires StrengthMeter(password).Some?
    ensures StrengthMeter(password).value.bar2 ==> StrengthMeter(password).value.bar1
  {
  }

  /** Exactly one message shows for every non-empty password. */
  lemma ExactlyOneMessage(password: string)
    requires password != ""
    ensures var t := StrengthMeter(password).value.text;
      (|password| < MinLength <==> t == WeakText) &&
      (MinLength <= |password| < StrongLength <==> t == AcceptableText) &&
      (|password| >= StrongLength <==> t == StrongText)
  {
    var n := |password|;
    assert WeakText != AcceptableText && WeakText != StrongText && AcceptableText != StrongText;
    if n < MinLength {
      assert MeterText(n) == WeakText + "" + "";
    } else if n < StrongLength {
      assert MeterText(n) == "" + AcceptableText + "";
    } else {
      assert MeterText(n) == "" + "" + StrongText;
    }
  }

  /** The third bar ignores length: a three-character password can light it while
      the first bar stays dark. */
  lemma ThirdBarIgnoresLength()
    ensures var m := StrengthMeter("Ab1").value;
      m.bar3 && !m.bar1
  {
    var p := "Ab1";
    assert 'A' <= p[0] <= 'Z';
    assert '0' <= p[2] <= '9';
  }
}
