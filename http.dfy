/** The HTTP vocabulary the handlers share: the status codes they write
    (Go's net/http constants) and the per-request key/value store of a gin
    context (`c.Set` / `c.Get`), whose values are always strings here. */
module Http {
  /** What a successful websocket upgrade answers. */
  const SWITCHING_PROTOCOLS := 101
  const OK := 200
  const CREATED := 201
  const FOUND := 302
  const BAD_REQUEST := 400
  const UNAUTHORIZED := 401
  const NOT_FOUND := 404
  const CONFLICT := 409
  const INTERNAL_SERVER_ERROR := 500

  /** The keys a gin context holds. */
  type Keys = map<string, string>
}
