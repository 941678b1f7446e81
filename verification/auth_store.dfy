/** The persisted session store: a bearer token and the two flags derived
    from it, with the `setToken` and `logout` transitions. The JWT decoder is
    a parameter; `None` stands for "decoding threw". */
module AuthStore {
  import opened Js

  /** The JavaScript values a decoded claim field can hold; `isGuest` only
      counts when it is the boolean `true` (a strict `=== true` test). */
  datatype JsValue = Undefined | Null | Bool(b: bool) | Number(n: int) | Text(s: string) | Object

  /** The `user` object of a decoded token payload, as far as the store reads it. */
  datatype UserClaims = UserClaims(isGuest: JsValue)

  /** A decoded token payload; `user` is None when it is missing or null. */
  datatype Claims = Claims(user: Option<UserClaims>)

  /** `jwtDecode`: Some(claims) on success, None when it throws. */
  type Decoder = string -> Option<Claims>

  datatype Session = Session(token: Option<string>, isAuthenticated: bool, isGuest: bool)

  /** The store's events. */
  datatype Event = SetToken(token: Option<string>) | Logout

  /** `decodedToken.user?.isGuest === true` */
  predicate GuestClaim(c: Claims) {
    c.user.Some? && c.user.value.isGuest == Bool(true)
  }

  /** The invariant every state of the store keeps: the authentication flag
      is the truthiness of the stored token, and only an authenticated
      session can be a guest one. */
  predicate Consistent(s: Session) {
    && s.isAuthenticated == Truthy(s.token)
    && (s.isGuest ==> s.isAuthenticated)
  }

  /** The signed-out session. */
  const SignedOut := Session(None, false, false)

  /** The store's state before any transition (and after `logout`). */
  function Initial(): (s: Session)
    ensures s.token == None && !s.isAuthenticated && !s.isGuest
    ensures Consistent(s)
  {
    SignedOut
  }

  /** `setToken(token)`: a falsy token is stored as given without decoding;
      a truthy token that fails to decode is discarded; a decodable one is
      kept, with the guest flag taken from its claims. */
  function SetTokenState(decode: Decoder, token: Option<string>): (s: Session)
    ensures Consistent(s)
    ensures !Truthy(token) ==> s == Session(token, false, false)
    ensures Truthy(token) && decode(token.value).None? ==> s == SignedOut
    ensures Truthy(token) && decode(token.value).Some? ==>
              s.token == token && s.isAuthenticated
    ensures s.isGuest <==>
              Truthy(token) && decode(token.value).Some? && GuestClaim(decode(token.value).value)
  {
    if Truthy(token) then
      match decode(token.value)
      case None => Session(None, false, false)
      case Some(claims) => Session(token, true, GuestClaim(claims))
    else
      Session(token, false, false)
  }

  /** `logout()`: clears all three fields. */
  function LogoutState(): (s: Session)
    ensures s.token == None && !s.isAuthenticated && !s.isGuest
  {
    SignedOut
  }

  /** One transition of the store; both events overwrite every field, so the
      prior state is not consulted. */
  function Apply(decode: Decoder, s: Session, e: Event): (r: Session)
    ensures Consistent(r)
  {
    match e
    case SetToken(t) => SetTokenState(decode, t)
    case Logout => LogoutState()
  }

  /** The state after a sequence of events. */
  function Replay(decode: Decoder, s: Session, events: seq<Event>): Session
    decreases |events|
  {
    if events == [] then s
    else Replay(decode, Apply(decode, s, events[0]), events[1..])
  }

  /** Every state reachable from a consistent one is consistent; in
      particular every state reachable from the initial one. */
  lemma {:induction false} ReplayConsistent(decode: Decoder, s: Session, events: seq<Event>)
    requires Consistent(s)
    ensures Consistent(Replay(decode, s, events))
    ensures Consistent(Replay(decode, Initial(), events))
    decreases |events|
  {
    if events != [] {
      ReplayConsistent(decode, Apply(decode, s, events[0]), events[1..]);
      ReplayConsistent(decode, Apply(decode, Initial(), events[0]), events[1..]);
    }
  }

  /** The store has no memory beyond its last event: after a non-empty
      sequence of events, the state is what the last event alone yields,
      whatever the starting state was. */
  lemma {:induction false} ReplayIsLastEvent(decode: Decoder, s: Session, events: seq<Event>)
    requires events != []
    ensures Replay(decode, s, events) == Apply(decode, Initial(), events[|events| - 1])
    decreases |events|
  {
    if |events| > 1 {
      ReplayIsLastEvent(decode, Apply(decode, s, events[0]), events[1..]);
    }
  }

  /** A token that fails to decode leaves the store exactly as `logout` does. */
  lemma UndecodableIsLogout(decode: Decoder, token: string)
    requires token != "" && decode(token).None?
    ensures SetTokenState(decode, Some(token)) == LogoutState()
  {
  }

  /** The empty string is stored, but does not authenticate. */
  lemma EmptyTokenStoredUnauthenticated(decode: Decoder)
    ensures SetTokenState(decode, Some("")) == Session(Some(""), false, false)
  {
  }

  /** `logout` is idempotent. */
  lemma LogoutIdempotent(decode: Decoder, s: Session)
    ensures Apply(decode, Apply(decode, s, Logout), Logout) == Apply(decode, s, Logout)
  {
  }
}
