/** `domain/authorisation/grant.py`: `AuthorisationGrant`, the
    client-credentials holder of the authorisation generation. Its `token`
    property raises (`raise a` reads an undefined name), so every call for
    headers fails, after the call has been recorded. */
module Grant {
  import opened Wrappers
  import opened Throttle
  import opened AuthToken
  import opened AuthTables

  /** `str(package)` as a `KeyError` shows it. */
  function KeyName(package: Option<string>): string
  {
    match package
    case None => "None"
    case Some(name) => name
  }

  /** `throttle_rate`, or the package's entry of `throttle_rates` when it is
      `None`; then `int` of it. */
  function ThrottleRateFor(package: Option<string>, throttleRate: Option<real>): (r: Result<int>)
    ensures throttleRate.Some? ==> r == Ok(Truncate(throttleRate.value))
    ensures throttleRate.None? && package == Some("CRM") ==> r == Ok(2)
    ensures throttleRate.None? && package != Some("CRM") ==> r == Err(KeyError(KeyName(package)))
  {
    match throttleRate
    case Some(rate) => Ok(Truncate(rate))
    case None =>
      if package.Some? && package.value in ThrottleRates then Ok(ThrottleRates[package.value])
      else Err(KeyError(KeyName(package)))
  }

  class AuthorisationGrant {
    const clientId: Option<string>
    const clientSecret: Option<string>
    const package: Option<string>
    const throttleRate: int
    /** `_api_call_times`, oldest first. */
    var callTimes: seq<int>

    /** The fields `__init__` sets once the throttle rate is known. */
    constructor (clientId: Option<string>, clientSecret: Option<string>, package: Option<string>,
                 throttleRate: int)
      ensures this.clientId == clientId && this.clientSecret == clientSecret
      ensures this.package == package && this.throttleRate == throttleRate
      ensures callTimes == []
    {
      this.clientId := clientId;
      this.clientSecret := clientSecret;
      this.package := package;
      this.throttleRate := throttleRate;
      callTimes := [];
    }

    /** `discover_package`: not implemented, so it never names a package. */
    function DiscoverPackage(): (r: Result<string>)
      ensures r.Err? && r.error == NotImplementedError("nope")
    {
      Err(NotImplementedError("nope"))
    }

    /** `token`: `raise a`, where no `a` is defined, so no grant ever yields
        a token. */
    function Token(): (r: Result<string>)
      ensures r.Err? && r.error == NameError("a")
    {
      Err(NameError("a"))
    }

    /** `scopes`: the package's entry of `packages.scopes`. */
    function Scopes(): (r: Result<seq<string>>)
      ensures package == Some("CRM") ==> r == Ok([])
      ensures package != Some("CRM") ==> r == Err(KeyError(KeyName(package)))
    {
      if package.Some? && package.value in PackageScopes then Ok(PackageScopes[package.value])
      else Err(KeyError(KeyName(package)))
    }

    /** `has_scope`: membership in `scopes`, whose lookup error propagates. */
    function HasScope(scope: string): (r: Result<bool>)
      ensures r.Ok? <==> package == Some("CRM")
      ensures r.Ok? ==> !r.value
    {
      var scopes :- Scopes();
      Ok(scope in scopes)
    }

    /** `token_headers`: wait for a turn and record the call, then fail on
        `token`. */
    method TokenHeaders(clock: Clock) returns (r: Result<map<string, string>>)
      modifies this`callTimes, clock
      ensures callTimes == Admit(old(callTimes), old(clock.now), throttleRate)
      ensures clock.now == Drained(old(callTimes), old(clock.now), throttleRate).1
      ensures |callTimes| >= 1 && callTimes[|callTimes| - 1] == clock.now
      ensures r == Err(NameError("a"))
    {
      var kept := WaitTurn(callTimes, throttleRate, clock);
      callTimes := kept + [clock.now];
      match Token()
      case Err(e) => r := Err(e);
      case Ok(token) => r := Ok(map["Authorization" := token, "Content-Type" := "application/json"]);
    }
  }

  /** `AuthorisationGrant(client_id, client_secret, package, throttle_rate)`:
      the rate lookup raises `KeyError` before a grant is returned. */
  method NewGrant(clientId: Option<string>, clientSecret: Option<string>, package: Option<string>,
                  throttleRate: Option<real>)
    returns (r: Result<AuthorisationGrant>)
    ensures ThrottleRateFor(package, throttleRate).Err? ==>
              r == Err(ThrottleRateFor(package, throttleRate).error)
    ensures ThrottleRateFor(package, throttleRate).Ok? ==>
              && r.Ok? && fresh(r.value)
              && r.value.clientId == clientId && r.value.clientSecret == clientSecret
              && r.value.package == package
              && r.value.throttleRate == ThrottleRateFor(package, throttleRate).value
              && r.value.callTimes == []
  {
    var rate :- ThrottleRateFor(package, throttleRate);
    var grant := new AuthorisationGrant(clientId, clientSecret, package, rate);
    r := Ok(grant);
  }

  /** Without an explicit rate only a "CRM" grant can be built, and it is
      throttled at two calls. */
  lemma DefaultRateOnlyForCrm(package: Option<string>)
    ensures ThrottleRateFor(package, None).Ok? <==> package == Some("CRM")
    ensures package == Some("CRM") ==> ThrottleRateFor(package, None) == Ok(2)
  {
  }
}
