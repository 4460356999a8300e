/** `domain/plans.py`: `BaseAPIPlan` and its two plan classes, a second copy
    of the token holder that treats the expiry instant as expired. */
module Plans {
  import opened Wrappers
  import opened Packages
  import opened TokenMint
  import PackageBase

  datatype PlanClass = PropertyLocationsPlan | AgentListingsPlan

  /** The class attribute `available_scopes` of each plan class. */
  function PlanScopes(p: PlanClass): seq<string>
  {
    match p
    case PropertyLocationsPlan => PropertyLocationScopes
    case AgentListingsPlan => ["api_agencies_read", "api_listings_read"]
  }

  /** The plan tables agree with the package tables of the same name: six
      Property and Locations scopes without property reports, and exactly
      the agencies and listings scopes for Agents and Listings. */
  lemma PlanTables()
    ensures PlanScopes(PropertyLocationsPlan) == AvailableScopes(PropertyLocationPackage)
    ensures |PlanScopes(PropertyLocationsPlan)| == 6
    ensures "api_propertyreports_read" !in PlanScopes(PropertyLocationsPlan)
    ensures PlanScopes(AgentListingsPlan) == AvailableScopes(AgentsListingsPackage)
    ensures forall s :: s in PlanScopes(AgentListingsPlan)
                   <==> s == "api_agencies_read" || s == "api_listings_read"
  {
  }

  class BaseAPIPlan {
    const planClass: PlanClass
    const created: int
    const scopes: seq<string>
    const accessToken: TokenData
    var session: HttpSession?

    /** The fields `__init__` sets once the issuer has answered. */
    constructor (planClass: PlanClass, created: int, scopes: seq<string>, accessToken: TokenData)
      ensures this.planClass == planClass && this.created == created
      ensures this.scopes == scopes && this.accessToken == accessToken
      ensures session == null
    {
      this.planClass := planClass;
      this.created := created;
      this.scopes := scopes;
      this.accessToken := accessToken;
      session := null;
    }

    /** `has_token_expired`: the token counts as expired at its expiry instant. */
    predicate HasTokenExpired(now: int)
    {
      now >= created + accessToken.expiresIn
    }

    /** `token`: the `Authorization` header value. */
    function Token(): string
    {
      AuthorizationValue(accessToken)
    }

    /** `session`: created on first use with the token headers, then cached. */
    method Session() returns (s: HttpSession)
      modifies this`session
      ensures old(session) != null ==> s == old(session) && session == old(session)
      ensures old(session) == null ==> fresh(s) && session == s && s.headers == AuthHeaders(Token())
    {
      if session == null {
        var sess := new HttpSession();
        sess.Update(AuthHeaders(Token()));
        session := sess;
      }
      s := session;
    }
  }

  /** `PlanClass(client_id, client_secret, scopes)`: mint a token for the
      requested scopes; a refusal raises before any field is set. */
  method NewPlan(planClass: PlanClass, clientId: Option<string>, clientSecret: Option<string>,
                 scopesArg: ScopesArg, issue: Issuer, now: int)
    returns (r: Result<BaseAPIPlan>)
    ensures var requested := RequestedScopes(scopesArg, PlanScopes(planClass));
            match issue(TokenRequest(clientId, clientSecret, requested))
            case Refused(status) => r == Err(HttpError(status))
            case Issued(data) =>
              && r.Ok? && fresh(r.value)
              && r.value.planClass == planClass && r.value.created == now
              && r.value.scopes == requested && r.value.accessToken == data
              && r.value.session == null
  {
    var requested := RequestedScopes(scopesArg, PlanScopes(planClass));
    match issue(TokenRequest(clientId, clientSecret, requested))
    case Refused(status) =>
      r := Err(HttpError(status));
    case Issued(data) =>
      var p := new BaseAPIPlan(planClass, now, requested, data);
      r := Ok(p);
  }

  /** Expiry holds from the expiry instant on and never before. */
  lemma ExpiredFromExpiry(p: BaseAPIPlan, now: int)
    ensures p.HasTokenExpired(p.created + p.accessToken.expiresIn)
    ensures forall earlier :: earlier < p.created + p.accessToken.expiresIn ==> !p.HasTokenExpired(earlier)
    ensures p.HasTokenExpired(now) ==> forall later :: later >= now ==> p.HasTokenExpired(later)
  {
  }

  /** The two token holders disagree exactly at the expiry instant: a
      package token issued at the same time with the same lifetime is still
      valid there, while the plan token has expired; at every other instant
      one is valid exactly when the other has not expired. */
  lemma ExpiryBoundaryDisagrees(p: BaseAPIPlan, q: PackageBase.BasePackage, now: int)
    requires p.created == q.created && p.accessToken.expiresIn == q.accessToken.expiresIn
    ensures now != p.created + p.accessToken.expiresIn ==> (q.IsTokenValid(now) <==> !p.HasTokenExpired(now))
    ensures now == p.created + p.accessToken.expiresIn ==> q.IsTokenValid(now) && p.HasTokenExpired(now)
  {
  }
}
