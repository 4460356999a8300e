/** `domain/base.py`: `BaseDomainClient`, which keeps the credentials of the
    two free packages and the list of tokens it has minted, and picks or
    mints the token for each end point. */
module Client {
  import opened Wrappers
  import opened Search
  import opened Packages
  import opened Permissions
  import opened TokenMint
  import opened PackageBase
  import Utils

  /** `_API_URL` and `_API_VERSION`. */
  const ApiHostUrl: string := "https://api.domain.com.au"
  const ApiVersion: nat := 1

  /** `_api_url(end_point)`: `"{}/v{}/{}".format(_API_URL, _API_VERSION, end_point)`. */
  function ApiUrl(endPoint: string): string
  {
    ApiHostUrl + "/v" + Utils.DecimalString(ApiVersion) + "/" + endPoint
  }

  /** The client's URL is the general URI builder's, over https, host
      `api.domain.com.au` and version `v1`. */
  lemma ApiUrlIsUri(endPoint: string)
    ensures ApiUrl(endPoint) == Utils.Uri(endPoint, "api.domain.com.au", "v1", "https")
    ensures ApiUrl(endPoint) == "https://api.domain.com.au/v1/" + endPoint
  {
    var prefix := "https://api.domain.com.au/v1/";
    assert ApiHostUrl + "/v" + Utils.DecimalString(ApiVersion) + "/" == prefix by {
      assert Utils.DecimalString(1) == "1";
    }
    assert "https" + "://" + "api.domain.com.au" + "/" + "v1" + "/" == prefix;
  }

  /** The environment variables read when a credential pair is not given. */
  const PropertyIdVar: string := "API_DOMAIN_PROPERTY_CLIENT_ID"
  const PropertySecretVar: string := "API_DOMAIN_PROPERTY_CLIENT_SECRET"
  const AgentIdVar: string := "API_DOMAIN_AGENT_CLIENT_ID"
  const AgentSecretVar: string := "API_DOMAIN_AGENT_CLIENT_SECRET"

  /** `os.environ.get(name)`. */
  function EnvGet(env: map<string, string>, name: string): Option<string>
  {
    if name in env then Some(env[name]) else None
  }

  /** The pair given, or, when `None` is given, the pair read from the
      environment. */
  function CredentialsOrEnv(given: Option<Credentials>, env: map<string, string>,
                            idVar: string, secretVar: string): Credentials
  {
    match given
    case Some(pair) => pair
    case None => (EnvGet(env, idVar), EnvGet(env, secretVar))
  }

  /** `None in v` for a credential pair. */
  predicate HasNone(c: Credentials)
  {
    c.0.None? || c.1.None?
  }

  /** The `for … else` over `_auth`: the "No API credentials found!" warning
      is logged exactly when every credential pair holds a `None`. */
  function NoCredentialsFound(auth: seq<(PackageClass, Credentials)>): (r: bool)
    ensures r <==> forall i :: 0 <= i < |auth| ==> HasNone(auth[i].1)
  {
    var complete := FirstIndex(auth, (entry: (PackageClass, Credentials)) => !HasNone(entry.1));
    assert complete.Some? ==> !HasNone(auth[complete.value].1);
    complete.None?
  }

  /** The classes of `_auth`, in its insertion order. */
  const AuthOrder: seq<PackageClass> := [AgentsListingsPackage, PropertyLocationPackage]

  /** `scope in plan.available_scopes and plan in accessible_plans`; note
      that `in` on the tuple is class equality, not `isinstance`. */
  predicate Qualifies(c: PackageClass, scope: string, accessible: seq<PackageClass>)
  {
    scope in AvailableScopes(c) && c in accessible
  }

  /** The position in `_auth` of the package class a new token is minted for. */
  function SelectPlan(scope: string, accessible: seq<PackageClass>): (r: Option<nat>)
    ensures r.Some? ==> r.value < |AuthOrder| && Qualifies(AuthOrder[r.value], scope, accessible)
    ensures r.Some? ==> forall j :: 0 <= j < r.value ==> !Qualifies(AuthOrder[j], scope, accessible)
    ensures r.None? <==> forall j :: 0 <= j < |AuthOrder| ==> !Qualifies(AuthOrder[j], scope, accessible)
  {
    var r := FirstIndex(AuthOrder, c => Qualifies(c, scope, accessible));
    assert r.Some? ==> Qualifies(AuthOrder[r.value], scope, accessible);
    assert forall j :: (0 <= j < |AuthOrder| && (r.None? || j < r.value)
      ==> !Qualifies(AuthOrder[j], scope, accessible));
    r
  }

  /** Some stored token was minted with `scope`. */
  predicate ScopeHeld(tokens: seq<BasePackage>, scope: string)
  {
    exists i :: 0 <= i < |tokens| && scope in tokens[i].scopes
  }

  /** A tuple that names only business classes can never be served: the
      client holds credentials for the two free classes alone. */
  lemma BusinessOnlyUnselectable(scope: string, accessible: seq<PackageClass>)
    requires forall c :: c in accessible ==> IsBusiness(c)
    ensures SelectPlan(scope, accessible).None?
  {
  }

  /** Sales results are served by the free Property and Locations package,
      the second entry of `_auth`. */
  lemma SalesResultsSelection(rest: string)
    ensures var p := Permissions.Permissions("salesResults/" + rest);
            p.Ok? && SelectPlan(p.value.0, p.value.1) == Some(1)
  {
    SalesResults(rest);
    assert Qualifies(AuthOrder[1], "api_salesresults_read", [PropertyLocationPackage]);
  }

  /** Agencies, statistics included, are served by the free Agents and
      Listings package, the first entry of `_auth`. */
  lemma AgenciesSelection(rest: string)
    ensures var p := Permissions.Permissions("agencies/" + rest);
            p.Ok? && SelectPlan(p.value.0, p.value.1) == Some(0)
  {
    Agencies(rest);
    assert Qualifies(AuthOrder[0], "api_agencies_read", [AgentsListingsPackage]);
  }

  /** Listing statistics name only the business edition, so no token can be
      minted for them. */
  lemma ListingsStatisticsSelection(rest: string)
    ensures var p := Permissions.Permissions("listings/statistics" + rest);
            p.Ok? && SelectPlan(p.value.0, p.value.1).None?
  {
    ListingsStatistics(rest);
    BusinessOnlyUnselectable("api_listings_read", [AgentsListingsBusinessPackage]);
  }

  /** `addressLocators`, `demographics` and `disclaimers` end points name
      only business classes, so selection always fails for them. */
  lemma BusinessEndPointsUnselectable(apiEndPoint: string)
    requires BasePoint(apiEndPoint) in {"addressLocators", "demographics", "disclaimers"}
    ensures var p := Permissions.Permissions(apiEndPoint);
            p.Ok? && SelectPlan(p.value.0, p.value.1).None?
  {
    var b := BasePoint(apiEndPoint);
    if b == "addressLocators" {
      AddressLocators(apiEndPoint);
    } else if b == "demographics" {
      Demographics(apiEndPoint);
    } else {
      Disclaimers(apiEndPoint);
    }
    var p := Permissions.Permissions(apiEndPoint);
    BusinessOnlyUnselectable(p.value.0, p.value.1);
  }

  /** What `_prepare_request` does before any request is sent: fail with an
      error, or mint a token for `scope` with the credentials at position
      `index` of `_auth`. */
  datatype Step = Fail(error: Error) | Mint(index: nat, scope: string)

  /** The decision once the scope and the package tuple are known. */
  function Choose(scope: string, accessible: seq<PackageClass>, tokens: seq<BasePackage>): (r: Step)
    ensures r.Mint? ==> r.index < |AuthOrder| && r.scope == scope
  {
    if ScopeHeld(tokens, scope) then Fail(UnboundLocalError("plan"))
    else match SelectPlan(scope, accessible)
      case None => Fail(ValueError("no plans available with required scope"))
      case Some(k) => Mint(k, scope)
  }

  /** The decision for an end point, given the tokens already stored. */
  function Plan(endPoint: string, tokens: seq<BasePackage>): (r: Step)
    ensures r.Mint? ==> r.index < |AuthOrder|
  {
    match Permissions.Permissions(endPoint)
    case Err(e) => Fail(e)
    case Ok(p) => Choose(p.0, p.1, tokens)
  }

  /** Once a stored token holds the scope an end point needs, preparing a
      request for it always fails: the reuse branch leaves `plan` unbound. */
  lemma ReuseAlwaysFails(endPoint: string, tokens: seq<BasePackage>)
    requires Permissions.Permissions(endPoint).Ok?
    requires ScopeHeld(tokens, Permissions.Permissions(endPoint).value.0)
    ensures Plan(endPoint, tokens) == Fail(UnboundLocalError("plan"))
  {
  }

  /** The evidently intended test of line 93, `isinstance(token,
      accessible_plans)`: a stored token is reused when it holds the scope
      and its class is, or derives from, one of the accessible classes. */
  predicate Reusable(t: BasePackage, scope: string, accessible: seq<PackageClass>)
  {
    scope in t.scopes && exists c :: c in accessible && IsInstance(t.packageClass, c)
  }

  /** The intended decision: reuse the stored token at `position`, or fall
      through to the mint loop exactly as written. */
  datatype IntendedStep = Reuse(position: nat) | Fallback(step: Step)

  /** The token scan of `_prepare_request` with line 93 corrected. */
  function ChooseIntended(scope: string, accessible: seq<PackageClass>, tokens: seq<BasePackage>)
    : (r: IntendedStep)
    ensures r.Reuse? ==> r.position < |tokens| && Reusable(tokens[r.position], scope, accessible)
    ensures r.Reuse? ==> forall j :: 0 <= j < r.position ==> !Reusable(tokens[j], scope, accessible)
    ensures r.Fallback? <==> forall j :: 0 <= j < |tokens| ==> !Reusable(tokens[j], scope, accessible)
    ensures r.Fallback? ==> (r.step.Fail? <==> SelectPlan(scope, accessible).None?)
    ensures r.Fallback? && r.step.Mint? ==> r.step == Mint(SelectPlan(scope, accessible).value, scope)
  {
    match FirstIndex(tokens, (t: BasePackage) => Reusable(t, scope, accessible))
    case Some(i) => Reuse(i)
    case None =>
      Fallback(match SelectPlan(scope, accessible)
               case None => Fail(ValueError("no plans available with required scope"))
               case Some(k) => Mint(k, scope))
  }

  /** Where no stored token holds the scope, the corrected scan and the
      scan as written take the same decision. */
  lemma IntendedAgreesWithoutHeldScope(scope: string, accessible: seq<PackageClass>, tokens: seq<BasePackage>)
    requires !ScopeHeld(tokens, scope)
    ensures ChooseIntended(scope, accessible, tokens) == Fallback(Choose(scope, accessible, tokens))
  {
  }

  /** A token just minted for a scope is found again by the corrected scan
      on the next request, while the scan as written fails on it. */
  lemma MintedTokenReused(scope: string, accessible: seq<PackageClass>, tokens: seq<BasePackage>,
                          t: BasePackage)
    requires Choose(scope, accessible, tokens).Mint?
    requires t.packageClass == AuthOrder[Choose(scope, accessible, tokens).index]
    requires t.scopes == [scope]
    ensures ChooseIntended(scope, accessible, tokens + [t]) == Reuse(|tokens|)
    ensures Choose(scope, accessible, tokens + [t]) == Fail(UnboundLocalError("plan"))
  {
    var all := tokens + [t];
    var k := Choose(scope, accessible, tokens).index;
    assert Qualifies(AuthOrder[k], scope, accessible);
    assert Reusable(t, scope, accessible) by {
      assert AuthOrder[k] in accessible && IsInstance(t.packageClass, AuthOrder[k]);
    }
    forall j | 0 <= j < |tokens|
      ensures !Reusable(all[j], scope, accessible)
    {
      assert all[j] == tokens[j];
      assert scope !in tokens[j].scopes;
    }
    assert ScopeHeld(all, scope) by {
      assert scope in all[|tokens|].scopes;
    }
  }

  /** With no stored token, a sales results end point mints a sales results
      token with the Property and Locations credentials. */
  lemma SalesResultsPlan(rest: string)
    ensures Plan("salesResults/" + rest, []) == Mint(1, "api_salesresults_read")
  {
    SalesResultsSelection(rest);
    SalesResults(rest);
  }

  /** With no stored token, an agencies end point mints an agencies token
      with the Agents and Listings credentials. */
  lemma AgenciesPlan(rest: string)
    ensures Plan("agencies/" + rest, []) == Mint(0, "api_agencies_read")
  {
    AgenciesSelection(rest);
    Agencies(rest);
  }

  /** Listing statistics can never be prepared, whatever is stored: with no
      stored listings token no plan qualifies, and once another listings end
      point has minted one the scan leaves `plan` unbound. */
  lemma ListingsStatisticsPlan(rest: string, tokens: seq<BasePackage>)
    ensures !ScopeHeld(tokens, "api_listings_read") ==>
              Plan("listings/statistics" + rest, tokens)
              == Fail(ValueError("no plans available with required scope"))
    ensures ScopeHeld(tokens, "api_listings_read") ==>
              Plan("listings/statistics" + rest, tokens) == Fail(UnboundLocalError("plan"))
  {
    ListingsStatisticsSelection(rest);
    ListingsStatistics(rest);
  }

  /** Every stored token was minted for one scope of its class, and no two
      share a scope. */
  predicate TokensValid(tokens: seq<BasePackage>)
  {
    && (forall i :: 0 <= i < |tokens| ==>
          |tokens[i].scopes| == 1 && tokens[i].packageClass in AuthOrder
          && tokens[i].scopes[0] in AvailableScopes(tokens[i].packageClass))
    && (forall i, j :: 0 <= i < j < |tokens| ==> tokens[i].scopes != tokens[j].scopes)
  }

  /** Appending a token minted for one scope of a free class, when no stored
      token holds that scope, keeps the stored tokens well formed. */
  lemma AppendKeepsTokensValid(tokens: seq<BasePackage>, t: BasePackage)
    requires TokensValid(tokens)
    requires |t.scopes| == 1 && t.packageClass in AuthOrder
    requires t.scopes[0] in AvailableScopes(t.packageClass)
    requires !ScopeHeld(tokens, t.scopes[0])
    ensures TokensValid(tokens + [t])
  {
    var all := tokens + [t];
    forall i, j | 0 <= i < j < |all|
      ensures all[i].scopes != all[j].scopes
    {
      if j == |tokens| {
        assert all[i] == tokens[i];
        assert tokens[i].scopes == [tokens[i].scopes[0]];
      }
    }
  }

  class BaseDomainClient {
    /** `_auth`: each free package class with its credential pair. */
    const auth: seq<(PackageClass, Credentials)>
    /** Whether the constructor logged "No API credentials found!". */
    const warnedNoCredentials: bool
    /** `_tokens`. */
    var tokens: seq<BasePackage>

    /** `_auth` holds the two free classes in order, and the stored tokens
        are well formed. */
    ghost predicate Valid()
      reads this
    {
      && |auth| == |AuthOrder|
      && (forall i :: 0 <= i < |auth| ==> auth[i].0 == AuthOrder[i])
      && TokensValid(tokens)
    }

    /** `__init__(auth_property, auth_agent)`, with the environment passed in. */
    constructor (authProperty: Option<Credentials>, authAgent: Option<Credentials>, env: map<string, string>)
      ensures auth == [(AgentsListingsPackage, CredentialsOrEnv(authAgent, env, AgentIdVar, AgentSecretVar)),
                       (PropertyLocationPackage, CredentialsOrEnv(authProperty, env, PropertyIdVar, PropertySecretVar))]
      ensures warnedNoCredentials <==> HasNone(auth[0].1) && HasNone(auth[1].1)
      ensures tokens == []
      ensures Valid()
    {
      var property := CredentialsOrEnv(authProperty, env, PropertyIdVar, PropertySecretVar);
      var agent := CredentialsOrEnv(authAgent, env, AgentIdVar, AgentSecretVar);
      var table := [(AgentsListingsPackage, agent), (PropertyLocationPackage, property)];
      auth := table;
      warnedNoCredentials := NoCredentialsFound(table);
      tokens := [];
    }

    /** The issuer request for the credentials at position `k` of `_auth`
        and the single scope `scope`. */
    function RequestFor(k: nat, scope: string): MintRequest
      requires k < |auth|
    {
      TokenRequest(auth[k].1.0, auth[k].1.1, [scope])
    }

    /** The `else` branch of the token scan: the mint loop over `_auth`,
        for a scope no stored token holds. */
    method MintFirstQualifying(scope: string, accessible: seq<PackageClass>, url: string,
                               issue: Issuer, now: int)
      returns (r: Result<(HttpSession, string)>)
      requires Valid() && scope != "" && !ScopeHeld(tokens, scope)
      modifies this`tokens
      ensures Valid()
      ensures SelectPlan(scope, accessible).None? ==>
                r == Err(ValueError("no plans available with required scope")) && tokens == old(tokens)
      ensures SelectPlan(scope, accessible).Some? ==>
                var reply := issue(RequestFor(SelectPlan(scope, accessible).value, scope));
                reply.Refused? ==> r == Err(HttpError(reply.status)) && tokens == old(tokens)
      ensures SelectPlan(scope, accessible).Some? ==>
                var k := SelectPlan(scope, accessible).value;
                var reply := issue(RequestFor(k, scope));
                reply.Issued? ==>
                  && |tokens| == |old(tokens)| + 1 && tokens[..|old(tokens)|] == old(tokens)
                  && fresh(tokens[|old(tokens)|])
                  && tokens[|old(tokens)|].packageClass == AuthOrder[k]
                  && tokens[|old(tokens)|].scopes == [scope]
                  && tokens[|old(tokens)|].accessToken == reply.data
                  && tokens[|old(tokens)|].created == now
                  && r.Ok? && r.value.1 == url
                  && r.value.0 == tokens[|old(tokens)|].session && fresh(r.value.0)
                  && r.value.0.headers == AuthHeaders(tokens[|old(tokens)|].Token())
    {
      var k := 0;
      while k < |auth|
        invariant 0 <= k <= |auth|
        invariant forall j :: 0 <= j < k ==> !Qualifies(AuthOrder[j], scope, accessible)
      {
        var plan := auth[k].0;
        var credentials := auth[k].1;
        if scope in AvailableScopes(plan) && plan in accessible {
          assert SelectPlan(scope, accessible) == Some(k);
          var made := NewPackage(plan, credentials.0, credentials.1, OneScope(scope), issue, now);
          if made.Err? {
            return Err(made.error);
          }
          var token := made.value;
          AppendKeepsTokensValid(tokens, token);
          tokens := tokens + [token];
          var session := token.Session();
          return Ok((session, url));
        }
        k := k + 1;
      }
      return Err(ValueError("no plans available with required scope"));
    }

    /** The token scan and the mint loop of `_prepare_request`, once the
        scope and the package tuple are known. */
    method Acquire(scope: string, accessible: seq<PackageClass>, url: string, issue: Issuer, now: int)
      returns (r: Result<(HttpSession, string)>)
      requires Valid() && scope != ""
      modifies this`tokens
      ensures Valid()
      ensures Choose(scope, accessible, old(tokens)).Fail? ==>
                r == Err(Choose(scope, accessible, old(tokens)).error) && tokens == old(tokens)
      ensures Choose(scope, accessible, old(tokens)).Mint? ==>
                var reply := issue(RequestFor(Choose(scope, accessible, old(tokens)).index, scope));
                reply.Refused? ==> r == Err(HttpError(reply.status)) && tokens == old(tokens)
      ensures Choose(scope, accessible, old(tokens)).Mint? ==>
                var k := Choose(scope, accessible, old(tokens)).index;
                var reply := issue(RequestFor(k, scope));
                reply.Issued? ==>
                  && |tokens| == |old(tokens)| + 1 && tokens[..|old(tokens)|] == old(tokens)
                  && fresh(tokens[|old(tokens)|])
                  && tokens[|old(tokens)|].packageClass == AuthOrder[k]
                  && tokens[|old(tokens)|].scopes == [scope]
                  && tokens[|old(tokens)|].accessToken == reply.data
                  && tokens[|old(tokens)|].created == now
                  && r.Ok? && r.value.1 == url
                  && r.value.0 == tokens[|old(tokens)|].session && fresh(r.value.0)
                  && r.value.0.headers == AuthHeaders(tokens[|old(tokens)|].Token())
    {
      // Do we have a token with this scope already?
      var i := 0;
      while i < |tokens|
        invariant 0 <= i <= |tokens|
        invariant forall j :: 0 <= j < i ==> scope !in tokens[j].scopes
      {
        if scope in tokens[i].scopes {
          return Err(UnboundLocalError("plan"));
        }
        i := i + 1;
      }
      // Need to create a new token.
      r := MintFirstQualifying(scope, accessible, url, issue, now);
    }

    /** `_prepare_request(end_point)`: the session and URL for an end point.
        A stored token that holds the scope makes line 93 read `plan` before
        it is assigned, so reuse always fails; otherwise a token for that one
        scope is minted for the first qualifying class and appended. */
    method PrepareRequest(endPoint: string, issue: Issuer, now: int)
      returns (r: Result<(HttpSession, string)>)
      requires Valid()
      modifies this`tokens
      ensures Valid()
      ensures Plan(endPoint, old(tokens)).Fail? ==>
                r == Err(Plan(endPoint, old(tokens)).error) && tokens == old(tokens)
      ensures Plan(endPoint, old(tokens)).Mint? ==>
                var reply := issue(RequestFor(Plan(endPoint, old(tokens)).index, Plan(endPoint, old(tokens)).scope));
                reply.Refused? ==> r == Err(HttpError(reply.status)) && tokens == old(tokens)
      ensures Plan(endPoint, old(tokens)).Mint? ==>
                var k := Plan(endPoint, old(tokens)).index;
                var scope := Plan(endPoint, old(tokens)).scope;
                var reply := issue(RequestFor(k, scope));
                reply.Issued? ==>
                  && |tokens| == |old(tokens)| + 1 && tokens[..|old(tokens)|] == old(tokens)
                  && fresh(tokens[|old(tokens)|])
                  && tokens[|old(tokens)|].packageClass == AuthOrder[k]
                  && tokens[|old(tokens)|].scopes == [scope]
                  && tokens[|old(tokens)|].accessToken == reply.data
                  && tokens[|old(tokens)|].created == now
                  && r.Ok? && r.value.1 == ApiUrl(endPoint)
                  && r.value.0 == tokens[|old(tokens)|].session && fresh(r.value.0)
                  && r.value.0.headers == AuthHeaders(tokens[|old(tokens)|].Token())
    {
      var perm := Permissions.Permissions(endPoint);
      if perm.Err? {
        return Err(perm.error);
      }
      ScopeNamesPlain(endPoint);
      r := Acquire(perm.value.0, perm.value.1, ApiUrl(endPoint), issue, now);
    }

    /** Two requests for the same end point: when the first mints a token,
        the second fails, because the token it finds cannot be reused. */
    method PrepareTwice(endPoint: string, issue: Issuer, now: int)
      returns (first: Result<(HttpSession, string)>, second: Result<(HttpSession, string)>)
      requires Valid()
      modifies this`tokens
      ensures Valid()
      ensures first.Ok? ==> second == Err(UnboundLocalError("plan"))
    {
      first := PrepareRequest(endPoint, issue, now);
      if first.Ok? {
        var scope := Plan(endPoint, old(tokens)).scope;
        assert scope in tokens[|old(tokens)|].scopes;
        assert ScopeHeld(tokens, scope);
      }
      second := PrepareRequest(endPoint, issue, now);
    }
  }
}
