/** `domain/packages/base.py`: `BasePackage`, one minted token for one
    package class. A subclass only changes `available_scopes`, so the class
    of the instance is kept as a field. */
module PackageBase {
  import opened Wrappers
  import opened Packages
  import opened TokenMint

  class BasePackage {
    const packageClass: PackageClass
    const created: int
    const scopes: seq<string>
    const accessToken: TokenData
    var session: HttpSession?

    /** The fields `__init__` sets once the issuer has answered. */
    constructor (packageClass: PackageClass, created: int, scopes: seq<string>, accessToken: TokenData)
      ensures this.packageClass == packageClass && this.created == created
      ensures this.scopes == scopes && this.accessToken == accessToken
      ensures session == null
    {
      this.packageClass := packageClass;
      this.created := created;
      this.scopes := scopes;
      this.accessToken := accessToken;
      session := null;
    }

    /** `is_token_valid`: the token still counts at its expiry instant. */
    predicate IsTokenValid(now: int)
    {
      created + accessToken.expiresIn >= now
    }

    /** `token`: the `Authorization` header value. */
    function Token(): string
    {
      AuthorizationValue(accessToken)
    }

    /** `session`: created on first use with the token headers, then reused. */
    method Session() returns (s: HttpSession)
      modifies this`session
      ensures old(session) != null ==> s == old(session) && session == old(session)
      ensures old(session) == null ==> fresh(s) && session == s && s.headers == AuthHeaders(Token())
    {
      if session == null {
        var sess := new HttpSession();
        sess.Update(AuthHeaders(Token()));
        session := sess;
      }
      s := session;
    }
  }

  /** `PackageClass(client_id, client_secret, scopes)`: mint a token for the
      requested scopes; a refusal raises before any field is set. */
  method NewPackage(packageClass: PackageClass, clientId: Option<string>, clientSecret: Option<string>,
                    scopesArg: ScopesArg, issue: Issuer, now: int)
    returns (r: Result<BasePackage>)
    ensures var requested := RequestedScopes(scopesArg, AvailableScopes(packageClass));
            match issue(TokenRequest(clientId, clientSecret, requested))
            case Refused(status) => r == Err(HttpError(status))
            case Issued(data) =>
              && r.Ok? && fresh(r.value)
              && r.value.packageClass == packageClass && r.value.created == now
              && r.value.scopes == requested && r.value.accessToken == data
              && r.value.session == null
  {
    var requested := RequestedScopes(scopesArg, AvailableScopes(packageClass));
    match issue(TokenRequest(clientId, clientSecret, requested))
    case Refused(status) =>
      r := Err(HttpError(status));
    case Issued(data) =>
      var p := new BasePackage(packageClass, now, requested, data);
      r := Ok(p);
  }

  /** Reading the session twice gives the same session. */
  method SessionReadTwice(p: BasePackage) returns (first: HttpSession, second: HttpSession)
    modifies p`session
    ensures first == second && p.session == first
    ensures first.headers == if old(p.session) == null then AuthHeaders(p.Token()) else old(p.session.headers)
  {
    first := p.Session();
    second := p.Session();
  }

  /** Validity holds up to and including the expiry instant and never after. */
  lemma ValidUntilExpiry(p: BasePackage, now: int)
    ensures p.IsTokenValid(now) <==> now <= p.created + p.accessToken.expiresIn
    ensures p.IsTokenValid(p.created + p.accessToken.expiresIn)
    ensures forall later :: later > p.created + p.accessToken.expiresIn ==> !p.IsTokenValid(later)
  {
  }

  /** Validity only ever goes from true to false as time passes. */
  lemma ValidityMonotone(p: BasePackage, earlier: int, later: int)
    requires earlier <= later && p.IsTokenValid(later)
    ensures p.IsTokenValid(earlier)
  {
  }
}
