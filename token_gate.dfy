/** The proof-of-work admission check: a request with no session must
    either target the token-issuing endpoint or carry a token. */
module TokenGate {
  import opened Basics

  /** The URI suffix of the endpoint that issues tokens. */
  const TokenPath: string := "/api/token"

  /** The error raised when a request is refused for want of a token. */
  const TokenFailure: Error := InternalServerError("TokenFailure: Missing or invalid token")

  /** The request is let through to the next layer. It is refused exactly
      when it has no session, its URI is not the token endpoint and it
      carries no token. */
  function Admits(hasSession: bool, uri: string, hasToken: bool): (ok: bool)
    ensures !ok <==> !hasSession && !HasSuffix(uri, TokenPath) && !hasToken
  {
    EndsWithIsSuffix(uri, TokenPath);
    hasSession || EndsWith(uri, TokenPath) || hasToken
  }

  /** A session alone, or a token alone, is enough to pass the gate. */
  lemma SessionOrTokenSuffices(hasSession: bool, uri: string, hasToken: bool)
    requires hasSession || hasToken
    ensures Admits(hasSession, uri, hasToken)
  {
  }

  /** Any request for a URI under the token endpoint passes, even without
      session or token. */
  lemma {:induction false} TokenEndpointAlwaysAdmitted(prefix: string, hasSession: bool, hasToken: bool)
    ensures Admits(hasSession, prefix + TokenPath, hasToken)
  {
    assert HasSuffix(prefix + TokenPath, TokenPath);
  }
}
