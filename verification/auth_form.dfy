/** The request lifecycle the login and registration pages share: submit
    without client-side validation, then hand a returned token to the
    session store and go to the dashboard, or show the server's message. */
module AuthForm {
  import opened Js
  import AuthStore

  /** Where a successful sign-in or registration navigates. */
  const DashboardPath := "/dashboard"

  /** The status half of a form page's state. */
  datatype Status = Status(isLoading: bool, error: string)

  /** The server's answer: the response's `token` field, or a failure
      carrying the response's `msg` field when there is one. */
  datatype Response = Accepted(token: Option<string>) | Rejected(msg: Option<string>)

  /** The status, session and navigation after a request settles. */
  datatype Settled = Settled(status: Status, session: AuthStore.Session, navigate: Option<string>)

  /** The start of `onSubmit`: loading, with any earlier error cleared. */
  function Begin(st: Status): (r: Status)
    ensures r.isLoading && r.error == ""
  {
    Status(true, "")
  }

  /** The end of `onSubmit`: on success the token goes through `setToken`
      and the page navigates to the dashboard; on failure the session is
      untouched and the error is the server's message or `fallback`;
      loading stops either way. */
  function Settle(st: Status, session: AuthStore.Session, decode: AuthStore.Decoder,
                  response: Response, fallback: string): (r: Settled)
    ensures !r.status.isLoading
    ensures response.Accepted? ==>
              && r.session == AuthStore.SetTokenState(decode, response.token)
              && r.navigate == Some(DashboardPath)
              && r.status.error == st.error
    ensures response.Rejected? ==>
              && r.session == session
              && r.navigate.None?
              && r.status.error == (if Truthy(response.msg) then response.msg.value else fallback)
  {
    match response
    case Accepted(token) =>
      Settled(st.(isLoading := false), AuthStore.SetTokenState(decode, token), Some(DashboardPath))
    case Rejected(msg) =>
      Settled(Status(false, OrElse(msg, fallback)), session, None)
  }
}
