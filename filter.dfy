/** The request interceptor (JwtAuthenticationFilter). It reads a bearer
    token from the Authorization header, swallows any failure to read its
    claims, binds a principal only when none is bound yet and the token
    validates, and always passes the request on down the chain. */
module Filter {
  import opened Outcomes
  import Jwt

  const BEARER_PREFIX := "Bearer "

  /** An authenticated principal: its name and its granted authorities. */
  datatype Authentication = Authentication(name: string, authorities: seq<string>)

  /** The security context of the request being handled. */
  class SecurityContext {
    var authentication: Option<Authentication>

    constructor ()
      ensures authentication == None
    {
      authentication := None;
    }
  }

  /** The rest of the filter chain; it records the authentication that each
      invocation found bound. */
  class FilterChain {
    var observed: seq<Option<Authentication>>

    constructor ()
      ensures observed == []
    {
      observed := [];
    }

    method DoFilter(context: SecurityContext)
      modifies this
      ensures observed == old(observed) + [context.authentication]
    {
      observed := observed + [context.authentication];
    }
  }

  /** The token carried by the header: only a present header that starts
      with "Bearer " carries one, and it is the rest of the header. */
  function BearerToken(header: Option<string>): (token: Option<string>)
    ensures token.Some? <==> header.Some? && BEARER_PREFIX <= header.value
    ensures token.Some? ==> header.value == BEARER_PREFIX + token.value
  {
    if header.Some? && |header.value| >= 7 && header.value[..7] == BEARER_PREFIX
    then Some(header.value[7..])
    else None
  }

  /** The authentication bound after the filter has run, given the one
      bound before it. */
  function Authenticate(jwt: Jwt.JwtUtil, header: Option<string>, existing: Option<Authentication>, now: int)
    : (bound: Option<Authentication>)
    ensures existing.Some? ==> bound == existing
    ensures bound != existing ==>
      && existing.None? && bound.Some?
      && BearerToken(header).Some?
      && Jwt.Verifies(jwt, BearerToken(header).value)
      && var claims := jwt.parse(BearerToken(header).value).value;
      && now < claims.expiration
      && bound.value == Authentication(claims.subject, [claims.role])
    ensures (&& existing.None? && BearerToken(header).Some?
             && Jwt.Verifies(jwt, BearerToken(header).value)
             && now < jwt.parse(BearerToken(header).value).value.expiration) ==>
      bound.Some?
  {
    match BearerToken(header)
    case None => existing
    case Some(tokenValue) =>
      match Jwt.ExtractUsername(jwt, tokenValue)
      case Rejected(_) => existing
      case Extracted(tokenUsername) =>
        if existing.None? && Jwt.ValidateToken(jwt, tokenValue, tokenUsername, now) == Jwt.Extracted(true)
        then Some(Authentication(tokenUsername, [Jwt.ExtractRole(jwt, tokenValue).value]))
        else existing
  }

  /** A header that is absent, lacks the prefix, or carries a token that
      does not verify leaves the context as it was. */
  lemma UnreadableTokenBindsNothing(jwt: Jwt.JwtUtil, header: Option<string>, existing: Option<Authentication>, now: int)
    requires BearerToken(header).None? || !Jwt.Verifies(jwt, BearerToken(header).value)
    ensures Authenticate(jwt, header, existing, now) == existing
  {
  }

  class JwtAuthenticationFilter {
    const jwtUtil: Jwt.JwtUtil

    constructor (jwtUtil: Jwt.JwtUtil)
      ensures this.jwtUtil == jwtUtil
    {
      this.jwtUtil := jwtUtil;
    }

    /** doFilterInternal, for a request whose Authorization header is
        `authorizationHeader`, at clock reading `now`. */
    method DoFilterInternal(authorizationHeader: Option<string>, context: SecurityContext, chain: FilterChain, now: int)
      modifies context, chain
      ensures context.authentication == Authenticate(jwtUtil, authorizationHeader, old(context.authentication), now)
      ensures chain.observed == old(chain.observed) + [context.authentication]
    {
      var tokenUsername: Option<string> := None;
      var tokenValue: Option<string> := None;
      var tokenRole: Option<string> := None;

      if authorizationHeader.Some? && |authorizationHeader.value| >= 7 && authorizationHeader.value[..7] == BEARER_PREFIX {
        tokenValue := Some(authorizationHeader.value[7..]);
        // a token whose claims cannot be read leaves tokenUsername unset
        var username := Jwt.ExtractUsername(jwtUtil, tokenValue.value);
        if username.Extracted? {
          tokenUsername := Some(username.value);
          var role := Jwt.ExtractRole(jwtUtil, tokenValue.value);
          if role.Extracted? {
            tokenRole := Some(role.value);
          }
        }
      }

      if tokenUsername.Some? && context.authentication.None? {
        if Jwt.ValidateToken(jwtUtil, tokenValue.value, tokenUsername.value, now) == Jwt.Extracted(true) {
          context.authentication := Some(Authentication(tokenUsername.value, [tokenRole.value]));
        }
      }

      chain.DoFilter(context);
    }
  }
}
