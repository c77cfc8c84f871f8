/** The auth gate in front of every protected route: it takes a bearer token from the
    Authorization header, has the user use-case verify it, and either answers 401 or
    passes the request on with the verified identity in its context. */
module AuthMiddleware {
  import opened Wrappers
  import opened Model
  import opened Errors
  import opened Responses
  import opened Http

  const AuthContextKey := "authenticated_user"
  const AuthorizationHeader := "Authorization"
  const BearerPrefix := "Bearer "

  /** The token of an Authorization header: one leading "Bearer " removed if present,
      otherwise the header as it is. */
  function ExtractToken(header: string): (token: string)
    ensures |token| <= |header| && token == header[|header| - |token|..]
    ensures |token| == |header| <==> !(BearerPrefix <= header)
    ensures |token| < |header| ==> |token| == |header| - |BearerPrefix|
  {
    if BearerPrefix <= header then header[|BearerPrefix|..] else header
  }

  /** The "Bearer " form yields exactly the token that follows it. */
  lemma ExtractBearer(t: string)
    ensures ExtractToken(BearerPrefix + t) == t
  {
    assert BearerPrefix <= BearerPrefix + t;
  }

  /** Headers without the exact prefix, including the bare word and other casings,
      are taken as raw tokens. */
  lemma ExtractRaw()
    ensures ExtractToken("wrong") == "wrong"
    ensures ExtractToken("Bearer") == "Bearer"
    ensures ExtractToken("bearer x") == "bearer x"
    ensures ExtractToken("Bearer ") == ""
  {
    assert !(BearerPrefix <= "bearer x") by { assert "bearer x"[0] != BearerPrefix[0]; }
    assert !(BearerPrefix <= "Bearer");
  }

  /** Only one prefix is removed, so extraction is not idempotent. */
  lemma ExtractTrimsOnce()
    ensures ExtractToken("Bearer Bearer x") == "Bearer x"
    ensures ExtractToken(ExtractToken("Bearer Bearer x")) == "x"
  {
    ExtractBearer("Bearer x");
    ExtractBearer("x");
    assert "Bearer Bearer x" == BearerPrefix + "Bearer x";
    assert "Bearer x" == BearerPrefix + "x";
  }

  /** The gate's verdict on a header, given the token verification of the user use-case. */
  datatype Decision = Unauthorized | Authenticated(auth: Auth)

  /** No identity without a successful verification of the extracted token, and no
      verification at all for a missing header or an empty token. */
  function Decide(header: string, verify: string -> Result<Auth, HandlerError>): (d: Decision)
    ensures header == "" || ExtractToken(header) == "" ==> d == Unauthorized
    ensures d.Authenticated? ==> verify(ExtractToken(header)) == Success(d.auth)
  {
    if header == "" then Unauthorized
    else
      var token := ExtractToken(header);
      if token == "" then Unauthorized
      else
        match verify(token)
        case Failure(_) => Unauthorized
        case Success(auth) => Authenticated(auth)
  }

  /** Fail closed: a caller is authenticated exactly when the header is present, its token
      is non-empty and verification of that token succeeds, and then with the identity
      that verification returned; every verification error, whatever it is, means 401. */
  lemma DecideFailsClosed(header: string, verify: string -> Result<Auth, HandlerError>)
    ensures Decide(header, verify).Authenticated?
      <==> header != "" && ExtractToken(header) != "" && verify(ExtractToken(header)).Success?
    ensures Decide(header, verify).Authenticated? ==>
      Decide(header, verify).auth == verify(ExtractToken(header)).value
  {
  }

  /** A missing header or an empty token is refused before any verification: the verdict
      does not depend on the verifier at all. */
  lemma RefusedBeforeLookup(header: string, v1: string -> Result<Auth, HandlerError>, v2: string -> Result<Auth, HandlerError>)
    requires header == "" || header == BearerPrefix
    ensures Decide(header, v1) == Unauthorized == Decide(header, v2)
  {
    ExtractRaw();
  }

  /** The raw form and the "Bearer " form of the same token are treated alike. */
  lemma BearerAndRawAgree(t: string, verify: string -> Result<Auth, HandlerError>)
    requires !(BearerPrefix <= t)
    ensures Decide(BearerPrefix + t, verify) == Decide(t, verify)
  {
    ExtractBearer(t);
  }

  /** What the gate does with one request: answer it with 401 and not call the next
      handler, or call the next handler once with the request carrying the identity. */
  datatype Handled = Rejected(ops: seq<Op<()>>) | Forwarded(request: Request)

  function NewAuth(verify: string -> Result<Auth, HandlerError>, r: Request): (h: Handled)
    ensures h.Forwarded? <==> Decide(Header(r, AuthorizationHeader), verify).Authenticated?
    ensures h.Rejected? ==> h.ops == ErrorResponse(Typed(ErrUnauthorized))
    ensures h.Forwarded? ==> HasUser(h.request) && h.request.(context := r.context) == r
  {
    match Decide(Header(r, AuthorizationHeader), verify)
    case Unauthorized => Rejected(ErrorResponse(Typed(ErrUnauthorized)))
    case Authenticated(auth) => Forwarded(r.(context := r.context[AuthContextKey := auth]))
  }

  /** Whether a request carries an identity; only requests the gate forwarded do. */
  predicate HasUser(r: Request)
  {
    AuthContextKey in r.context
  }

  /** The identity the gate stored. Reading it from a request the gate did not forward
      is a failed type assertion (a panic), hence the precondition. */
  function GetUser(r: Request): (auth: Auth)
    requires HasUser(r)
    ensures auth == r.context[AuthContextKey]
  {
    r.context[AuthContextKey]
  }

  /** A refused request gets status 401, a JSON content type and the body
      {"error": "Unauthorized"}. */
  lemma RejectedReply(verify: string -> Result<Auth, HandlerError>, r: Request)
    requires NewAuth(verify, r).Rejected?
    ensures Observe(NewAuth(verify, r).ops)
      == Reply(401, map[ContentType := ApplicationJson], [ErrorFields(map[ErrorKey := "Unauthorized"])])
  {
    PredefinedClientErrors();
  }

  /** A forwarded request is the incoming one with the verified identity added: GetUser
      on it returns that identity, and headers, query and URL parameters are untouched. */
  lemma ForwardedCarriesIdentity(verify: string -> Result<Auth, HandlerError>, r: Request)
    requires NewAuth(verify, r).Forwarded?
    ensures HasUser(NewAuth(verify, r).request)
    ensures GetUser(NewAuth(verify, r).request) == verify(ExtractToken(Header(r, AuthorizationHeader))).value
    ensures NewAuth(verify, r).request.(context := r.context) == r
  {
  }
}
