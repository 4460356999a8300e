/** What the two token-holding classes of the first generation share
    (`domain/packages/base.py` and `domain/plans.py`): the client-credentials
    request sent to the token issuer, the issuer's reply, the header string
    built from it, and the HTTP session object. The POST itself is not part
    of this model: the issuer is a function from request to reply that the
    caller supplies. */
module TokenMint {
  import opened Wrappers
  import opened Strings

  /** A `(client_id, client_secret)` pair; either part may be `None`. */
  type Credentials = (Option<string>, Option<string>)

  /** The `scopes` argument of the constructors: `None`, one string, or a
      sequence of strings. */
  datatype ScopesArg = NoScopes | OneScope(scope: string) | ScopeList(scopes: seq<string>)

  /** `scopes = scopes or available_scopes`, then a lone string becomes a
      one-element list. */
  function RequestedScopes(arg: ScopesArg, available: seq<string>): seq<string>
  {
    match arg
    case NoScopes => available
    case OneScope(s) => if s == "" then available else [s]
    case ScopeList(xs) => if xs == [] then available else xs
  }

  /** Falsy scopes (`None`, `""`, an empty sequence) request every available
      scope; anything else requests exactly what was given, in order. */
  lemma RequestedScopesRule(arg: ScopesArg, available: seq<string>)
    ensures arg.NoScopes? || arg == OneScope("") || arg == ScopeList([]) ==>
              RequestedScopes(arg, available) == available
    ensures arg.OneScope? && arg.scope != "" ==> RequestedScopes(arg, available) == [arg.scope]
    ensures arg.ScopeList? && arg.scopes != [] ==> RequestedScopes(arg, available) == arg.scopes
  {
  }

  /** The token issuer's address. */
  const TokenUrl: string := "https://auth.domain.com.au/v1/connect/token"

  /** The POST the constructors send: HTTP Basic credentials and the form
      `grant_type=client_credentials&scope=<scopes joined by spaces>`. */
  datatype MintRequest = MintRequest(url: string, auth: Credentials, grantType: string, scope: string)

  /** The JSON body of a successful issuer reply. */
  datatype TokenData = TokenData(accessToken: string, tokenType: string, expiresIn: int)

  /** What the issuer answers: a token, or a failing HTTP status. */
  datatype IssuerReply = Issued(data: TokenData) | Refused(status: int)

  type Issuer = MintRequest -> IssuerReply

  /** The request for `scopes` under the given credentials. */
  function TokenRequest(clientId: Option<string>, clientSecret: Option<string>, scopes: seq<string>): MintRequest
  {
    MintRequest(TokenUrl, (clientId, clientSecret), "client_credentials", Join(scopes, " "))
  }

  /** The scope field names every requested scope: splitting it on spaces
      gives the scopes back, when none is empty or holds a space. */
  lemma ScopeFieldRoundTrip(clientId: Option<string>, clientSecret: Option<string>, scopes: seq<string>)
    requires |scopes| >= 1
    requires forall i :: 0 <= i < |scopes| ==> ' ' !in scopes[i]
    ensures Split(TokenRequest(clientId, clientSecret, scopes).scope, ' ') == scopes
  {
    SplitJoin(scopes, ' ');
  }

  /** `"{} {}".format(token_type, access_token)`. */
  function AuthorizationValue(data: TokenData): string
  {
    data.tokenType + " " + data.accessToken
  }

  /** The header value is the token type, one space, then the access token:
      both parts can be read back from it. */
  lemma AuthorizationValueParts(data: TokenData)
    requires ' ' !in data.tokenType
    ensures Split(AuthorizationValue(data), ' ')[0] == data.tokenType
    ensures AuthorizationValue(data)[|data.tokenType| + 1..] == data.accessToken
  {
    assert AuthorizationValue(data) == data.tokenType + [' '] + data.accessToken;
    FirstPiece(data.tokenType, ' ', data.accessToken);
  }

  /** The headers the modelled code puts on a session or a request. */
  function AuthHeaders(authorization: string): map<string, string>
  {
    map["Authorization" := authorization, "Content-Type" := "application/json"]
  }

  /** A `requests` session; only the headers the modelled code sets are kept. */
  class HttpSession {
    var headers: map<string, string>

    constructor ()
      ensures headers == map[]
    {
      headers := map[];
    }

    /** `session.headers.update(extra)`. */
    method Update(extra: map<string, string>)
      modifies this
      ensures headers == old(headers) + extra
    {
      headers := headers + extra;
    }
  }
}
