/** The OAuth landing page of modern-chat-app/app/auth/google/callback/page.tsx.
    Its effect reads the `token`, `user` and `error` query parameters (None
    when absent), writes localStorage and pushes a route. `decodeParse` is
    `JSON.parse(decodeURIComponent(user))`, None when either throws, and
    `stringify` is `JSON.stringify` on the parsed value. */
module GoogleCallback {
  import opened Common

  datatype Params = Params(token: Option<string>, user: Option<string>, error: Option<string>)

  /** A localStorage write. */
  datatype Write = Write(key: string, value: string)

  /** The writes the effect makes, in order, and the route it pushes. */
  datatype Outcome = Outcome(writes: seq<Write>, route: string)

  const ROUTE_AUTH_FAILED: string := "/login?error=google_auth_failed"
  const ROUTE_INVALID_USER: string := "/login?error=invalid_user_data"
  const ROUTE_MISSING_DATA: string := "/login?error=missing_auth_data"
  const ROUTE_HOME: string := "/home"

  /** A query value the `if` takes as true: present and not "". */
  predicate Truthy(v: Option<string>) {
    v.Some? && v.value != ""
  }

  /** The effect (callback/page.tsx:10-34). */
  function Callback<J>(p: Params, decodeParse: string -> Option<J>, stringify: J -> string): (r: Outcome)
    // an error parameter wins over everything else, and nothing is stored
    ensures Truthy(p.error) ==> r == Outcome([], ROUTE_AUTH_FAILED)
    // both values present and the user parses: token, then user, then home
    ensures !Truthy(p.error) && Truthy(p.token) && Truthy(p.user) && decodeParse(p.user.value).Some? ==>
      r == Outcome([Write("token", p.token.value), Write("user", stringify(decodeParse(p.user.value).value))], ROUTE_HOME)
    // a user that does not decode or parse: nothing stored
    ensures !Truthy(p.error) && Truthy(p.token) && Truthy(p.user) && decodeParse(p.user.value).None? ==>
      r == Outcome([], ROUTE_INVALID_USER)
    ensures !Truthy(p.error) && !(Truthy(p.token) && Truthy(p.user)) ==> r == Outcome([], ROUTE_MISSING_DATA)
  {
    if Truthy(p.error) then Outcome([], ROUTE_AUTH_FAILED)
    else if Truthy(p.token) && Truthy(p.user) then
      match decodeParse(p.user.value)
      case Some(u) => Outcome([Write("token", p.token.value), Write("user", stringify(u))], ROUTE_HOME)
      case None => Outcome([], ROUTE_INVALID_USER)
    else Outcome([], ROUTE_MISSING_DATA)
  }

  /** The page stores something exactly when it sends the user home, and
      then it stores a non-empty token. */
  lemma StoresOnlyOnSuccess<J>(p: Params, decodeParse: string -> Option<J>, stringify: J -> string)
    ensures var r := Callback(p, decodeParse, stringify);
      (r.writes != [] <==> r.route == ROUTE_HOME)
      && (r.route == ROUTE_HOME ==> exists t :: t != "" && r.writes[0] == Write("token", t))
  {
  }

  /** Every route the page can push is one of the four. */
  lemma RoutesAreKnown<J>(p: Params, decodeParse: string -> Option<J>, stringify: J -> string)
    ensures Callback(p, decodeParse, stringify).route in {ROUTE_AUTH_FAILED, ROUTE_INVALID_USER, ROUTE_MISSING_DATA, ROUTE_HOME}
  {
  }
}
