/** The `Authenticate` middleware of server/middleware/middleware.go: the
    bearer token is the Authorization header minus its first seven bytes,
    handed to the token validator (an input here, since JWT
    parsing is not part of this model); its claims populate the context.
    A Go string is a byte string, so the header and the token here hold the
    header's raw bytes, one byte per character: slicing and length are then
    Go's byte slicing and `len`. */
module Middleware {
  import opened Common
  import opened Http

  /** The claims `ValidateToken` returns on success. */
  datatype Claims = Claims(userId: string, email: string, username: string)

  /** `len("Bearer ")`. */
  const BEARER_PREFIX_LENGTH: nat := |"Bearer "|

  /** What the middleware did: `validated` records the token passed to the
      validator, if it was called at all. */
  datatype AuthOutcome =
    | Aborted(status: int, validated: Option<string>, keys: Keys)
    | Proceed(validated: Option<string>, keys: Keys)

  /** Authenticate (middleware.go:10-30). A non-empty header shorter than
      the prefix (fewer than seven bytes) would make the Go slice panic, so it
      is excluded. */
  function Authenticate(header: string, keys: Keys, validate: string -> Option<Claims>): (r: AuthOutcome)
    requires header == "" || |header| >= BEARER_PREFIX_LENGTH
    // no header: rejected, and the validator is never consulted
    ensures header == "" ==> r == Aborted(UNAUTHORIZED, None, keys)
    // otherwise the validator sees exactly the header without its first seven bytes
    ensures header != "" ==> r.validated == Some(header[BEARER_PREFIX_LENGTH..])
    // a rejected token aborts with 401 and sets no context key
    ensures header != "" && validate(header[BEARER_PREFIX_LENGTH..]).None? ==> r.Aborted? && r.status == UNAUTHORIZED && r.keys == keys
    // an accepted token proceeds with the three claims in the context, other keys kept
    ensures r.Proceed? <==> header != "" && validate(header[BEARER_PREFIX_LENGTH..]).Some?
    ensures r.Proceed? ==>
      var c := validate(header[BEARER_PREFIX_LENGTH..]).value;
      && r.keys.Keys == keys.Keys + {"user_id", "email", "username"}
      && r.keys["user_id"] == c.userId && r.keys["email"] == c.email && r.keys["username"] == c.username
      && forall k :: k in keys && k !in {"user_id", "email", "username"} ==> r.keys[k] == keys[k]
  {
    if header == "" then Aborted(UNAUTHORIZED, None, keys)
    else
      var token := header[BEARER_PREFIX_LENGTH..];
      match validate(token)
      case None => Aborted(UNAUTHORIZED, Some(token), keys)
      case Some(claims) =>
        Proceed(Some(token), keys["user_id" := claims.userId]["email" := claims.email]["username" := claims.username])
  }

  /** The "Bearer " prefix itself is never checked: two non-empty headers
      that agree after the seventh character are treated alike. */
  lemma PrefixNotChecked(h1: string, h2: string, keys: Keys, validate: string -> Option<Claims>)
    requires |h1| >= BEARER_PREFIX_LENGTH && |h2| >= BEARER_PREFIX_LENGTH
    requires h1[BEARER_PREFIX_LENGTH..] == h2[BEARER_PREFIX_LENGTH..]
    ensures Authenticate(h1, keys, validate) == Authenticate(h2, keys, validate)
  {
  }
}
