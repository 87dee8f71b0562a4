/** The sign-in page. Unlike sign-up, the submit handler turns loading on
    first and only checks the fields after the mock delay; the check uses the
    email and password the handler captured when the form was submitted. */
module SignIn {
  import opened Common
  import Routes

  const MissingCredentialsError := "Please enter your email and password"

  /** The email and password captured when the form was submitted. */
  datatype Credentials = Credentials(email: string, password: string)

  /** Where the submit handler ends up after the delay: the dashboard when
      both fields hold text, otherwise no navigation and an error. */
  datatype Outcome = Navigate(path: string) | ShowError(message: string)

  function SubmitOutcome(c: Credentials): (r: Outcome)
    ensures r.Navigate? <==> c.email != "" && c.password != ""
    ensures r.Navigate? ==> r.path == Routes.DashboardPath
    ensures r.ShowError? ==> r.message == MissingCredentialsError
  {
    if c.email != "" && c.password != "" then Navigate(Routes.DashboardPath)
    else ShowError(MissingCredentialsError)
  }

  class SignInPage {
    var email: string
    var password: string
    var error: string
    var loading: bool

    /** While a request is pending no error is shown. */
    ghost predicate Valid()
      reads this
    {
      loading ==> error == ""
    }

    constructor ()
      ensures Valid()
      ensures email == "" && password == "" && error == "" && !loading
    {
      email, password, error, loading := "", "", "", false;
    }

    /** handleSubmit up to the awaited delay: clears the error and turns
        loading on, even when the fields are empty. */
    method HandleSubmit() returns (pending: Credentials)
      requires Valid() && !loading
      modifies this`error, this`loading
      ensures Valid()
      ensures error == "" && loading
      ensures pending == Credentials(email, password)
    {
      error := "";
      loading := true;
      pending := Credentials(email, password);
    }

    /** handleSubmit after the delay: navigate to the dashboard iff both
        captured fields hold text, otherwise show the error; loading is
        cleared in `finally`. */
    method ResumeSubmit(pending: Credentials) returns (target: Option<string>)
      requires Valid() && loading
      modifies this`error, this`loading
      ensures Valid() && !loading
      ensures target.Some? <==> SubmitOutcome(pending).Navigate?
      ensures target.Some? ==> target.value == Routes.DashboardPath && error == ""
      ensures target.None? ==> error == MissingCredentialsError
    {
      if pending.email != "" && pending.password != "" {
        target := Some(Routes.DashboardPath);
      } else {
        error := MissingCredentialsError;
        target := None;
      }
      loading := false;
    }

    /** handleGoogleSignIn up to the awaited delay. */
    method HandleGoogleSignIn()
      requires Valid() && !loading
      modifies this`error, this`loading
      ensures Valid()
      ensures error == "" && loading
    {
      error := "";
      loading := true;
    }

    /** handleGoogleSignIn after the delay: always the dashboard. */
    method ResumeGoogleSignIn() returns (target: string)
      requires Valid() && loading
      modifies this`loading
      ensures Valid()
      ensures target == Routes.DashboardPath && !loading && error == ""
    {
      target := Routes.DashboardPath;
      loading := false;
    }
  }
}
