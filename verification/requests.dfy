/**
 * The body of a generation request and the JavaScript value conversions the
 * handlers apply to it: truthiness, `${v}` interpolation and `v || default`.
 */
module Requests {
  import opened Wrappers

  /** `req.body` of a generation request. Each field is a string (or boolean) or absent. */
  datatype Request = Request(
    title: Option<string>,
    style: Option<string>,
    userPrompt: Option<string>,
    aspectRatio: Option<string>,
    colorScheme: Option<string>,
    textOverlay: Option<bool>)

  /** A string field is truthy when present and non-empty. */
  predicate Truthy(v: Option<string>)
  {
    v.Some? && |v.value| > 0
  }

  /** `if (!title || !style)` rejects the request. */
  predicate Valid(req: Request)
  {
    Truthy(req.title) && Truthy(req.style)
  }

  /** `${v}`: an absent value prints as `undefined`. */
  function Interp(v: Option<string>): (r: string)
    ensures v.Some? ==> r == v.value
    ensures v.None? ==> r == "undefined"
  {
    match v
    case Some(s) => s
    case None => "undefined"
  }

  /** `v || d`: the value when truthy, otherwise the default. */
  function OrDefault(v: Option<string>, d: string): (r: string)
    ensures Truthy(v) ==> r == v.value
    ensures !Truthy(v) ==> r == d
  {
    if Truthy(v) then v.value else d
  }

  /** The 400 message every generation handler answers for a request that fails validation. */
  const ValidationMessage: string := "Title and style are required fields"

  /** `req.session?.userId || 'test-user-123'`: the owner of records created without a login. */
  function SessionUser(session: Option<string>): (u: string)
    ensures Truthy(session) ==> u == session.value
    ensures !Truthy(session) ==> u == "test-user-123"
    ensures |u| > 0
  {
    OrDefault(session, "test-user-123")
  }

}
