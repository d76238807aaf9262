/** middleware/verifyToken.js: the stand-alone copy of the bearer-token gate.
    Setting `req.user` and calling `next()` is the `Next` outcome; every other
    outcome is a JSON response and `next` is not called. */
module VerifyToken {
  import opened Js
  import opened Crypto
  import Server

  datatype Outcome<C> = Reject(status: nat, msg: string) | Next(user: C)

  /** `verifyToken(req, res, next)` over the Authorization header. */
  function VerifyToken<C>(authorization: Option<string>, scheme: TokenScheme<C>): (r: Outcome<C>)
    ensures r.Reject? ==>
              (r.status == 401 && r.msg == "No token provided") || (r.status == 403 && r.msg == "Invalid token")
    ensures r.Next? ==> Truthy(authorization) && exists t :: Compact(t) && scheme.verify(t) == Some(r.user)
  {
    if !Truthy(authorization) then Reject(401, "No token provided")
    else
      var token := At(Split(authorization.value, ' '), 1);
      if !Truthy(token) then Reject(401, "No token provided")
      else
        match scheme.verify(token.value)
        case None => Reject(403, "Invalid token")
        case Some(user) => Next(user)
  }

  /** An absent or empty header, or one without a space (`"Bearer"`), is
      401 "No token provided". */
  lemma NoHeaderOrNoSpace<C>(authorization: Option<string>, scheme: TokenScheme<C>)
    requires authorization.None? || ' ' !in authorization.value
    ensures VerifyToken(authorization, scheme) == Reject(401, "No token provided")
  {
    if authorization.Some? {
      SplitWithoutSeparator(authorization.value, ' ');
    }
  }

  /** With `t` the second space-separated piece of the header, an empty `t`
      (`"Bearer "`) is 401, a `t` that fails verification is 403 "Invalid
      token", and a verified `t` calls `next` with its claims. */
  lemma OnSecondPiece<C>(prefix: string, t: string, rest: string, scheme: TokenScheme<C>)
    requires ' ' !in prefix && ' ' !in t
    requires rest == "" || rest[0] == ' '
    ensures t == "" ==> VerifyToken(Some(prefix + " " + t + rest), scheme) == Reject(401, "No token provided")
    ensures t != "" && scheme.verify(t).None? ==>
              VerifyToken(Some(prefix + " " + t + rest), scheme) == Reject(403, "Invalid token")
    ensures t != "" && scheme.verify(t).Some? ==>
              VerifyToken(Some(prefix + " " + t + rest), scheme) == Next(scheme.verify(t).value)
  {
    SecondPiece(prefix, t, rest, ' ');
  }

  /** A token the scheme issued, sent as `Bearer <token>`, reaches `next`
      with exactly its claims. */
  lemma IssuedTokenCallsNext<C(!new)>(scheme: TokenScheme<C>, c: C)
    requires RoundTrips(scheme)
    ensures VerifyToken(Some("Bearer " + scheme.sign(c)), scheme) == Next(c)
  {
    var t := scheme.sign(c);
    assert "Bearer " + t == "Bearer" + " " + t + "";
    OnSecondPiece("Bearer", t, "", scheme);
  }

  /** The middleware and server.js's `authenticateToken` parse the header
      the same way, though each verifies under its own secret (`server` and
      `middleware` here): they refuse with 401 on exactly the same headers,
      and on every other header both verify the same compact second piece,
      each deciding by its own verifier's answer alone. */
  lemma AgreesWithServerGate<C>(authorization: Option<string>, server: TokenScheme<Server.Claims>,
                                middleware: TokenScheme<C>)
    ensures VerifyToken(authorization, middleware) == Reject(401, "No token provided") <==>
              Server.AuthenticateToken(authorization, server) == Server.Deny(401)
    ensures Server.AuthenticateToken(authorization, server) != Server.Deny(401) ==>
              exists t :: Compact(t) && At(Split(authorization.value, ' '), 1) == Some(t) &&
                (Server.AuthenticateToken(authorization, server) ==
                   if server.verify(t).None? then Server.Deny(403) else Server.Pass(server.verify(t).value)) &&
                (VerifyToken(authorization, middleware) ==
                   if middleware.verify(t).None? then Reject(403, "Invalid token") else Next(middleware.verify(t).value))
  {
    if Server.AuthenticateToken(authorization, server) != Server.Deny(401) {
      var t := At(Split(authorization.value, ' '), 1).value;
      assert Compact(t);
    }
  }
}
