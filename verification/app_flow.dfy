/** End-to-end flows: a form page's outcome fed through the session store
    and then through the guard of the page it navigates to. */
module AppFlow {
  import opened Js
  import AuthStore
  import AuthForm
  import LoginPage
  import RegisterPage
  import ProtectedRoute

  /** The token is one the store will keep: truthy and decodable. */
  predicate Admissible(decode: AuthStore.Decoder, token: Option<string>) {
    Truthy(token) && decode(token.value).Some?
  }

  /** After a successful sign-in the page navigates to the dashboard, and
      the dashboard's guard renders it exactly when the returned token is
      truthy and decodes; a token that fails to decode (or is missing or
      empty) ends on the sign-in route. */
  lemma LoginSuccessThenGuard<C>(v: LoginPage.View, session: AuthStore.Session,
                                 decode: AuthStore.Decoder, token: Option<string>, dashboard: C)
    ensures var c := LoginPage.Complete(v, session, decode, AuthForm.Accepted(token));
            && c.navigate == Some(AuthForm.DashboardPath)
            && (ProtectedRoute.Guard(c.session, dashboard).Render? <==> Admissible(decode, token))
            && (!Admissible(decode, token) ==>
                  ProtectedRoute.Guard(c.session, dashboard) == ProtectedRoute.Redirect(ProtectedRoute.LoginPath))
  {
  }

  /** The same composition for registration. */
  lemma RegisterSuccessThenGuard<C>(v: RegisterPage.View, session: AuthStore.Session,
                                    decode: AuthStore.Decoder, token: Option<string>, dashboard: C)
    ensures var c := RegisterPage.Complete(v, session, decode, AuthForm.Accepted(token));
            && c.navigate == Some(AuthForm.DashboardPath)
            && (ProtectedRoute.Guard(c.session, dashboard).Render? <==> Admissible(decode, token))
            && (!Admissible(decode, token) ==>
                  ProtectedRoute.Guard(c.session, dashboard) == ProtectedRoute.Redirect(ProtectedRoute.LoginPath))
  {
  }

  /** A failed sign-in changes nothing the guard looks at. */
  lemma LoginFailureKeepsAccess<C>(v: LoginPage.View, session: AuthStore.Session,
                                   decode: AuthStore.Decoder, msg: Option<string>, page: C)
    ensures var c := LoginPage.Complete(v, session, decode, AuthForm.Rejected(msg));
            ProtectedRoute.Guard(c.session, page) == ProtectedRoute.Guard(session, page)
  {
  }

  /** After `logout`, every protected page redirects to sign-in. */
  lemma LogoutLocksOut<C>(decode: AuthStore.Decoder, s: AuthStore.Session, page: C)
    ensures ProtectedRoute.Guard(AuthStore.Apply(decode, s, AuthStore.Logout), page)
            == ProtectedRoute.Redirect(ProtectedRoute.LoginPath)
  {
  }
}
