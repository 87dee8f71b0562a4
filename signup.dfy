/** The sign-up page: a form whose submit handler runs an ordered chain of
    checks, reports the first one that fails, and otherwise shows a loading
    state for the mock registration delay and goes to the dashboard.

    Each async handler is modelled as two methods: the part that runs when
    the button is pressed, up to the awaited delay, and the continuation that
    runs when the delay is over. Both buttons are disabled while `loading`,
    so the first part requires `!loading`. */
module SignUp {
  import opened Common
  import opened Text
  import Routes

  const FillAllFieldsError := "Please fill in all fields"
  const PasswordMismatchError := "Passwords do not match"
  const PasswordTooShortError := "Password must be at least 8 characters long"
  const TermsError := "Please agree to the Terms of Service and Privacy Policy"
  const MinPasswordLength := 8

  /** Every field holds some text; only emptiness is tested, so a field of
      spaces counts as filled. */
  predicate AllFilled(name: string, email: string, password: string, confirmPassword: string)
  {
    name != "" && email != "" && password != "" && confirmPassword != ""
  }

  /** The message of the first check of the sign-up form that fails, in the
      order fill, match, length, terms; None when all pass. */
  function SubmitError(name: string, email: string, password: string, confirmPassword: string,
                       agreeToTerms: bool): (r: Option<string>)
    ensures r == Some(FillAllFieldsError) <==> !AllFilled(name, email, password, confirmPassword)
    ensures r == Some(PasswordMismatchError) <==>
      AllFilled(name, email, password, confirmPassword) && password != confirmPassword
    ensures r == Some(PasswordTooShortError) <==>
      AllFilled(name, email, password, confirmPassword) && password == confirmPassword &&
      Utf16Length(password) < MinPasswordLength
    ensures r == Some(TermsError) <==>
      AllFilled(name, email, password, confirmPassword) && password == confirmPassword &&
      Utf16Length(password) >= MinPasswordLength && !agreeToTerms
    ensures r == None <==>
      AllFilled(name, email, password, confirmPassword) && password == confirmPassword &&
      Utf16Length(password) >= MinPasswordLength && agreeToTerms
  {
    if !AllFilled(name, email, password, confirmPassword) then Some(FillAllFieldsError)
    else if password != confirmPassword then Some(PasswordMismatchError)
    else if Utf16Length(password) < MinPasswordLength then Some(PasswordTooShortError)
    else if !agreeToTerms then Some(TermsError)
    else None
  }

  /** A name of spaces passes the fill check: with a valid password and the
      terms accepted, the form is submitted. */
  lemma WhitespaceNameAccepted(email: string, password: string)
    requires email != "" && Utf16Length(password) >= MinPasswordLength
    ensures SubmitError("   ", email, password, password, true) == None
  {
  }

  class SignUpPage {
    var name: string
    var email: string
    var password: string
    var confirmPassword: string
    var agreeToTerms: bool
    var error: string
    var loading: bool

    /** While the mock request is pending no error is shown. */
    ghost predicate Valid()
      reads this
    {
      loading ==> error == ""
    }

    constructor ()
      ensures Valid()
      ensures name == "" && email == "" && password == "" && confirmPassword == ""
      ensures !agreeToTerms && error == "" && !loading
    {
      name, email, password, confirmPassword := "", "", "", "";
      agreeToTerms, error, loading := false, "", false;
    }

    /** The terms checkbox: flips agreeToTerms and nothing else. */
    method ToggleTerms()
      requires Valid()
      modifies this`agreeToTerms
      ensures Valid()
      ensures agreeToTerms == !old(agreeToTerms)
    {
      agreeToTerms := !agreeToTerms;
    }

    /** handleSubmit up to the awaited delay. The error is cleared, then the
        checks run in order and the first failure is shown; only when all
        pass does loading go on and the request start. */
    method HandleSubmit() returns (started: bool)
      requires Valid() && !loading
      modifies this`error, this`loading
      ensures Valid()
      ensures started <==> SubmitError(name, email, password, confirmPassword, agreeToTerms) == None
      ensures !started ==> Some(error) == SubmitError(name, email, password, confirmPassword, agreeToTerms)
      ensures started ==> error == ""
      ensures loading == started
    {
      error := "";
      if name == "" || email == "" || password == "" || confirmPassword == "" {
        error := FillAllFieldsError;
        return false;
      }
      if password != confirmPassword {
        error := PasswordMismatchError;
        return false;
      }
      if Utf16Length(password) < MinPasswordLength {
        error := PasswordTooShortError;
        return false;
      }
      if !agreeToTerms {
        error := TermsError;
        return false;
      }
      loading := true;
      started := true;
    }

    /** handleGoogleSignUp up to the awaited delay: the error is cleared and
        loading goes on, with no checks. */
    method HandleGoogleSignUp()
      requires Valid() && !loading
      modifies this`error, this`loading
      ensures Valid()
      ensures error == "" && loading
    {
      error := "";
      loading := true;
    }

    /** The continuation both handlers share once the delay is over: go to
        the dashboard, then clear loading in `finally`. */
    method ResumeAfterDelay() returns (target: string)
      requires Valid() && loading
      modifies this`loading
      ensures Valid()
      ensures target == Routes.DashboardPath && !loading && error == ""
    {
      target := Routes.DashboardPath;
      loading := false;
    }
  }
}
