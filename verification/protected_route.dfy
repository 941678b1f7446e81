/** The route guard wrapped around every protected page. */
module ProtectedRoute {
  import opened AuthStore

  /** Where an unauthenticated visitor is sent. */
  const LoginPath := "/login"

  /** What the guard renders: the wrapped page, or a `<Navigate>` element. */
  datatype Outcome<C> = Render(children: C) | Redirect(to: string)

  /** The guard decision for the current session. */
  function Guard<C>(s: Session, children: C): (o: Outcome<C>)
    ensures o.Render? <==> s.isAuthenticated
    ensures o.Render? ==> o.children == children
    ensures o.Redirect? ==> o.to == LoginPath
  {
    if !s.isAuthenticated then Redirect(LoginPath) else Render(children)
  }

  /** The decision reads nothing of the session but the authentication flag. */
  lemma GuardReadsOnlyAuthentication<C>(s1: Session, s2: Session, children: C)
    requires s1.isAuthenticated == s2.isAuthenticated
    ensures Guard(s1, children) == Guard(s2, children)
  {
  }

  /** In a consistent session the guard admits exactly the truthy tokens, so
      a guest session passes like a full one. */
  lemma GuardAdmitsTruthyTokens<C>(s: Session, children: C)
    requires Consistent(s)
    ensures Guard(s, children).Render? <==> Js.Truthy(s.token)
    ensures s.isGuest ==> Guard(s, children) == Render(children)
  {
  }
}
