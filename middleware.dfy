/**
 * The request middleware that gives every visitor an anonymous voter identity:
 * it keeps the `voter-token` cookie the request carries, or else takes a freshly
 * generated id, and writes the chosen value back as the response's
 * `voter-token` cookie. The fresh id is a parameter; the random generator
 * behind it is not modelled.
 */
module VoterIdentity {
  import opened Wrappers

  const VoterCookie: string := "voter-token"

  /** The cookies an incoming request carries, by name. */
  datatype Request = Request(cookies: map<string, string>)

  /** `request.cookies.get(name)`: the cookie's value, or `undefined`. */
  function CookieGet(cookies: map<string, string>, name: string): (r: Option<string>)
    ensures r.Some? <==> name in cookies
    ensures r.Some? ==> r.value == cookies[name]
  {
    if name in cookies then Some(cookies[name]) else None
  }

  /** `voterIdCookie ?? id`: the fallback is taken only when the cookie is absent. */
  function ChooseToken(voterIdCookie: Option<string>, id: string): string {
    match voterIdCookie
    case Some(token) => token
    case None => id
  }

  /** The token the middleware sends back for `request` when the fresh id is `id`. */
  function ResponseToken(request: Request, id: string): string {
    ChooseToken(CookieGet(request.cookies, VoterCookie), id)
  }

  /** The response `NextResponse.next()` builds: it lets the request go on, with a cookie jar. */
  class Response {
    const passesThrough: bool
    var cookies: map<string, string>

    /** `NextResponse.next()`: pass the request on, with no cookies set yet. */
    constructor Next()
      ensures passesThrough
      ensures cookies == map[]
    {
      passesThrough := true;
      cookies := map[];
    }

    /** `response.cookies.set(name, value)`: sets or overwrites one cookie and no other. */
    method SetCookie(name: string, value: string)
      modifies this
      ensures cookies == old(cookies)[name := value]
    {
      cookies := cookies[name := value];
    }
  }

  /**
   * `middleware(request)`, with `id` standing for `self.crypto.randomUUID()`: a
   * new pass-through response whose only cookie is `voter-token`, holding the
   * request's own token when it has one and `id` otherwise.
   */
  method Middleware(request: Request, id: string) returns (response: Response)
    ensures fresh(response)
    ensures response.passesThrough
    ensures response.cookies == map[VoterCookie := ResponseToken(request, id)]
    ensures VoterCookie in request.cookies ==> response.cookies[VoterCookie] == request.cookies[VoterCookie]
    ensures VoterCookie !in request.cookies ==> response.cookies[VoterCookie] == id
  {
    response := new Response.Next();
    var voterIdCookie := CookieGet(request.cookies, VoterCookie);
    var random := ChooseToken(voterIdCookie, id);
    response.SetCookie(VoterCookie, random);
  }

  /** A request that carries a `voter-token` gets exactly that token back. */
  lemma KeepsIncomingToken(request: Request, id: string)
    requires VoterCookie in request.cookies
    ensures ResponseToken(request, id) == request.cookies[VoterCookie]
  {
  }

  /** A request without a `voter-token` gets the freshly generated id. */
  lemma FreshIdWhenAbsent(request: Request, id: string)
    requires VoterCookie !in request.cookies
    ensures ResponseToken(request, id) == id
  {
  }

  /** The fallback is nullish only: an empty `voter-token` is kept, whatever the fresh id. */
  lemma EmptyTokenKept(request: Request, id: string)
    requires VoterCookie in request.cookies && request.cookies[VoterCookie] == ""
    ensures ResponseToken(request, id) == ""
  {
  }

  /**
   * Sending the response's token back with the next request yields the same
   * token again, whatever fresh id that request generates.
   */
  lemma TokenIdempotent(request: Request, id: string, nextId: string)
    ensures ResponseToken(Request(request.cookies[VoterCookie := ResponseToken(request, id)]), nextId)
         == ResponseToken(request, id)
  {
  }

  /** Two requests carrying the same `voter-token` get the same token, whatever the fresh ids. */
  lemma TokenStable(a: Request, b: Request, idA: string, idB: string)
    requires VoterCookie in a.cookies && VoterCookie in b.cookies
    requires a.cookies[VoterCookie] == b.cookies[VoterCookie]
    ensures ResponseToken(a, idA) == ResponseToken(b, idB)
  {
  }

}
