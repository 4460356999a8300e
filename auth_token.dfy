/** `domain/authorisation/token.py`: the second-generation `Token`, which
    holds the access token, its scopes and expiry, and throttles the calls
    that ask it for headers. */
module AuthToken {
  import opened Strings
  import opened TokenMint
  import opened Throttle

  /** `int(x)` on a number: truncation toward zero. */
  function Truncate(x: real): (r: int)
    ensures x >= 0.0 ==> r as real <= x < r as real + 1.0
    ensures x < 0.0 ==> r as real - 1.0 < x <= r as real
  {
    if x >= 0.0 then x.Floor else -((-x).Floor)
  }

  /** Truncation keeps whole numbers and rounds toward zero otherwise: `int`
      of a rate below one switches the throttle off. */
  lemma TruncateFacts(x: real, n: int)
    ensures Truncate(n as real) == n
    ensures 0.0 <= x < 1.0 ==> Truncate(x) == 0
    ensures -1.0 < x <= 0.0 ==> Truncate(x) == 0
  {
  }

  /** The default `token_type`. */
  const DefaultTokenType: string := "Bearer"
  /** The default `throttle_rate`. */
  const DefaultThrottleRate: real := 2.0

  class Token {
    const accessToken: string
    const tokenType: string
    /** The clock reading at construction plus `expires_in`. */
    const expires: int
    /** `tuple(scope.split(" "))`. */
    const scope: seq<string>
    const throttleRate: int
    /** `_api_call_times`, oldest first. */
    var callTimes: seq<int>

    /** `__init__`, with `time()` read as `now`. */
    constructor (accessToken: string, scope: string, expiresIn: int, now: int,
                 tokenType: string := DefaultTokenType, throttleRate: real := DefaultThrottleRate)
      ensures this.accessToken == accessToken && this.tokenType == tokenType
      ensures expires == now + expiresIn
      ensures this.scope == Split(scope, ' ')
      ensures this.throttleRate == Truncate(throttleRate)
      ensures callTimes == []
    {
      this.accessToken := accessToken;
      this.tokenType := tokenType;
      expires := now + expiresIn;
      this.scope := Split(scope, ' ');
      this.throttleRate := Truncate(throttleRate);
      callTimes := [];
    }

    /** `expired`: from the expiry instant on. */
    predicate Expired(now: int)
    {
      now >= expires
    }

    /** `__repr__`: the `Authorization` header value. */
    function Repr(): string
    {
      tokenType + " " + accessToken
    }

    /** `has_scope`. */
    predicate HasScope(s: string)
    {
      s in scope
    }

    /** `has_any_scope`: the set of `scopes` meets the scope tuple. */
    predicate HasAnyScope(scopes: seq<string>)
    {
      |(set s | s in scopes) * (set t | t in scope)| > 0
    }

    /** `headers`: wait for a turn, record the call, and return the
        authorisation headers. */
    method Headers(clock: Clock) returns (headers: map<string, string>)
      modifies this`callTimes, clock
      ensures callTimes == Admit(old(callTimes), old(clock.now), throttleRate)
      ensures clock.now == Drained(old(callTimes), old(clock.now), throttleRate).1
      ensures headers == AuthHeaders(Repr()) && headers["Authorization"] == Repr()
      ensures throttleRate <= 0 ==>
                callTimes == old(callTimes) + [old(clock.now)] && clock.now == old(clock.now)
      ensures (forall i :: 0 <= i < |old(callTimes)| ==> old(callTimes)[i] <= old(clock.now)) ==>
                old(clock.now) <= clock.now <= old(clock.now) + 1
    {
      if throttleRate <= 0 {
        NoThrottle(callTimes, clock.now, throttleRate);
      }
      if forall i :: 0 <= i < |callTimes| ==> callTimes[i] <= clock.now {
        AtMostOneWait(callTimes, clock.now, throttleRate);
      }
      var kept := WaitTurn(callTimes, throttleRate, clock);
      callTimes := kept + [clock.now];
      headers := AuthHeaders(Repr());
    }
  }

  /** Expiry is the constructor's instant plus the lifetime, and once
      expired a token stays expired. */
  lemma ExpiredMonotone(t: Token, now: int, later: int)
    requires t.Expired(now) && now <= later
    ensures t.Expired(later)
  {
  }

  /** `has_any_scope` holds exactly when some requested scope is held. */
  lemma HasAnyScopeMeaning(t: Token, scopes: seq<string>)
    ensures t.HasAnyScope(scopes) <==> exists i :: 0 <= i < |scopes| && t.HasScope(scopes[i])
  {
    var both := (set s | s in scopes) * (set u | u in t.scope);
    if i :| 0 <= i < |scopes| && t.HasScope(scopes[i]) {
      assert scopes[i] in both;
    }
    if |both| > 0 {
      var s :| s in both;
      var k := IndexOf(scopes, s);
      assert t.HasScope(scopes[k]);
    }
  }

  /** The position of an element known to be in a sequence. */
  function IndexOf(xs: seq<string>, x: string): (i: nat)
    requires x in xs
    ensures i < |xs| && xs[i] == x
  {
    if xs[0] == x then 0 else 1 + IndexOf(xs[1..], x)
  }

  /** No scope is held out of an empty request, and a one-scope request is
      `has_scope`. */
  lemma HasAnyScopeBase(t: Token, s: string)
    ensures !t.HasAnyScope([])
    ensures t.HasAnyScope([s]) <==> t.HasScope(s)
  {
    HasAnyScopeMeaning(t, []);
    HasAnyScopeMeaning(t, [s]);
    assert [s][0] == s;
  }

  /** A request of two parts is met when either part is. */
  lemma HasAnyScopeConcat(t: Token, a: seq<string>, b: seq<string>)
    ensures t.HasAnyScope(a + b) <==> t.HasAnyScope(a) || t.HasAnyScope(b)
  {
    HasAnyScopeMeaning(t, a);
    HasAnyScopeMeaning(t, b);
    HasAnyScopeMeaning(t, a + b);
    if t.HasAnyScope(a + b) {
      var i :| 0 <= i < |a + b| && t.HasScope((a + b)[i]);
      if i < |a| {
        assert (a + b)[i] == a[i];
      } else {
        assert (a + b)[i] == b[i - |a|];
      }
    }
    if t.HasAnyScope(b) {
      var i :| 0 <= i < |b| && t.HasScope(b[i]);
      assert (a + b)[|a| + i] == b[i];
    }
  }

  /** A token built from the scopes joined with single spaces holds exactly
      those scopes, when none is empty or holds a space. */
  lemma ScopeStringRoundTrip(t: Token, scopes: seq<string>, s: string)
    requires |scopes| >= 1 && forall i :: 0 <= i < |scopes| ==> ' ' !in scopes[i]
    requires t.scope == Split(Join(scopes, " "), ' ')
    ensures t.HasScope(s) <==> s in scopes
  {
    SplitJoin(scopes, ' ');
  }

  /** The header value is the one the first-generation classes build from
      the same token type and access token. */
  lemma ReprIsAuthorizationValue(t: Token, expiresIn: int)
    ensures t.Repr() == AuthorizationValue(TokenData(t.accessToken, t.tokenType, expiresIn))
  {
  }
}
