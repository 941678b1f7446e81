/** The registration page: a name/email/password form posted once per submit. */
module RegisterPage {
  import opened Js
  import AuthStore
  import AuthForm

  /** Shown when registration fails without a server message. */
  const FailureMessage := "Registration failed. Please try again."

  /** The inputs' `name` attributes. */
  datatype Field = Name | Email | Password

  datatype Form = Form(name: string, email: string, password: string)

  datatype View = View(form: Form, status: AuthForm.Status)

  /** A view together with the form it posts. */
  datatype Submitted = Submitted(view: View, request: Form)

  function Get(f: Form, field: Field): string {
    match field
    case Name => f.name
    case Email => f.email
    case Password => f.password
  }

  /** The page's state on mount. */
  function Initial(): (v: View)
    ensures forall field :: Get(v.form, field) == ""
    ensures !v.status.isLoading && v.status.error == ""
  {
    View(Form("", "", ""), AuthForm.Status(false, ""))
  }

  /** `onChange`: the named field takes the new value; the others keep their own. */
  function Changed(v: View, field: Field, value: string): (r: View)
    ensures Get(r.form, field) == value
    ensures forall other :: other != field ==> Get(r.form, other) == Get(v.form, other)
    ensures r.status == v.status
  {
    match field
    case Name => v.(form := v.form.(name := value))
    case Email => v.(form := v.form.(email := value))
    case Password => v.(form := v.form.(password := value))
  }

  /** The start of `onSubmit`: no validation; the page always starts loading,
      clears the error and posts the form exactly as held. */
  function Submit(v: View): (r: Submitted)
    ensures r.request == v.form && r.view.form == v.form
    ensures r.view.status.isLoading && r.view.status.error == ""
  {
    Submitted(v.(status := AuthForm.Begin(v.status)), v.form)
  }

  /** The end of `onSubmit`: a returned token goes through `setToken` and the
      page moves to the dashboard; a failure shows the server's message or
      the registration fallback and leaves the session alone. */
  function Complete(v: View, session: AuthStore.Session, decode: AuthStore.Decoder,
                    response: AuthForm.Response): (r: AuthForm.Settled)
    ensures !r.status.isLoading
    ensures response.Accepted? ==>
              && r.session == AuthStore.SetTokenState(decode, response.token)
              && r.navigate == Some(AuthForm.DashboardPath)
              && r.status.error == v.status.error
    ensures response.Rejected? ==>
              && r.session == session
              && r.navigate.None?
              && r.status.error == (if Truthy(response.msg) then response.msg.value else FailureMessage)
              && r.status.error != ""
  {
    AuthForm.Settle(v.status, session, decode, response, FailureMessage)
  }
}
