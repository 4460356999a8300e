# A verified model of the `domain` Domain API client

`domain` is a Python client for the Domain real-estate API. It has two generations of authorisation code.

The first generation (`domain/base.py`, `domain/packages/`, `domain/plans.py`) works as follows:

- A client keeps the credentials of the two free API packages, "Agents and Listings" and "Property and Locations".
- It maps each end point to the scope it needs and the package classes that may serve it.
- It mints one token per scope with an OAuth client-credentials POST and keeps the tokens it has minted.

The second generation (`domain/authorisation/`) works as follows:

- A `Token` holds its scopes and expiry, and throttles the calls that ask it for headers.
- An `AuthorisationGrant` does the same for a package.
- The `requires_scope` decorator finds the first credential whose token holds one of a method's scopes.

Alongside these are:

- the argument validators of `domain/validate.py`;
- the URI builder of `domain/utils.py`;
- `autogen.py`, which turns the Swagger description of an end point into the source text of a client method.

The model follows the source file by file. Each file becomes one module.

- **Pure code** (tables, `permissions`, the validators, the autogen string builders, the decorator's selection) becomes datatypes, functions and lemmas.
- **State-changing code** becomes classes with `modifies` clauses:
  - the client's list of tokens;
  - each package's cached session;
  - the call-time queues of the throttles.
- **Loops** become methods with invariants, proved against a specification function:
  - the throttle loop;
  - the token scan and mint loop;
  - the validators' entry loop;
  - the parameter loop of `parse_path_params`.

Several external pieces become parameters:

- The token issuer (`requests.post`) is a function `MintRequest -> IssuerReply`.
- The environment is a `map<string, string>`.
- The wall clock is a `Clock` object whose `Sleep` advances it by whole seconds.

A Python exception is an `Err` carrying the exception's class and message.

The model follows the code as written where it contradicts its own comments. It does so in these places:

- A stored token that holds the scope makes `_prepare_request` fail with `UnboundLocalError`, so a token is never reused.
- `agencies/{id}/statistics` is served by the free Agents and Listings package.
- The price-estimate and `_suggest` entries of the plan table are shadowed by the generic `properties` entry.
- The two token holders of the first generation disagree about the expiry instant.

## Model

| member | source | states |
|---|---|---|
| Utils.Uri | domain/utils.py:6-23 | the URI is the scheme, `://`, the host, `/`, the version, `/`, then the end point, each at its own position and nothing else |
| Utils.LeadingSlashDoubled | domain/utils.py:23 | slashes are not normalised: an end point starting with `/` yields `//` after the version |
| Client.ApiUrlIsUri | domain/base.py:15-16 | `_api_url` builds `https://api.domain.com.au/v1/<end point>`, the URI builder's result for that host and version |
| Client.NoCredentialsFound | domain/base.py:54-58 | the "No API credentials found!" warning is logged exactly when every credential pair holds a `None` |
| Client.BaseDomainClient.constructor | domain/base.py:18-60 | `_auth` holds the agent pair then the property pair, each taken from the environment when not given; no tokens are stored |
| Client.SelectPlan | domain/base.py:97-103 | the mint loop picks the first class of `_auth` that offers the scope and is in the end point's tuple, and fails exactly when no class does |
| Client.BusinessOnlyUnselectable | domain/base.py:97-103 | a tuple naming only business classes can never be served by the client |
| Client.SalesResultsSelection | domain/base.py:97-103 | sales results end points are served by the Property and Locations credentials |
| Client.AgenciesSelection | domain/base.py:97-103 | agencies end points, statistics included, are served by the Agents and Listings credentials |
| Client.ListingsStatisticsSelection | domain/base.py:97-103 | listing statistics can never be served |
| Client.BusinessEndPointsUnselectable | domain/base.py:89-103 | `addressLocators`, `demographics` and `disclaimers` end points can never be served |
| Client.Choose | domain/base.py:92-103 | the decision: fail when a stored token holds the scope, otherwise mint with the first qualifying class, otherwise raise "no plans available" |
| Client.Plan | domain/base.py:89-103 | `permissions` errors propagate; otherwise the decision for the end point's scope and tuple |
| Client.ReuseAlwaysFails | domain/base.py:92-94 | once a stored token holds the scope, preparing a request raises `UnboundLocalError` for `plan` |
| Client.ChooseIntended | domain/base.py:92-94 | corrected scan: reuse the first stored token that holds the scope and is an instance of an accessible class, otherwise fall through to the mint loop |
| Client.IntendedAgreesWithoutHeldScope | domain/base.py:92-103 | where no stored token holds the scope, the corrected scan and the scan as written decide the same |
| Client.MintedTokenReused | domain/base.py:92-100 | a token just minted is reused by the corrected scan on the next request, while the scan as written fails on it |
| Client.SalesResultsPlan | domain/base.py:89-103 | with no stored token, a sales results end point mints `api_salesresults_read` with the Property and Locations credentials |
| Client.AgenciesPlan | domain/base.py:89-103 | with no stored token, an agencies end point mints `api_agencies_read` with the Agents and Listings credentials |
| Client.ListingsStatisticsPlan | domain/base.py:89-103 | listing statistics can never be prepared: with no stored `api_listings_read` token they raise "no plans available with required scope", and with one (minted by another listings end point) the scan raises `UnboundLocalError` for `plan` |
| Client.AppendKeepsTokensValid | domain/base.py:98-100 | appending a one-scope token for a scope no stored token holds keeps the stored tokens one per scope |
| Client.BaseDomainClient.MintFirstQualifying | domain/base.py:96-103 | the mint loop: "no plans available" with the tokens unchanged when no class qualifies, the issuer's HTTP error, or a fresh one-scope token of the first qualifying class appended with the session carrying its headers |
| Client.BaseDomainClient.Acquire | domain/base.py:92-105 | the scan and the mint loop: the error of the decision, the issuer's HTTP error, or a fresh token appended with the session carrying its headers; the stored tokens stay one per scope |
| Client.BaseDomainClient.PrepareRequest | domain/base.py:80-105 | `_prepare_request`: the same for the end point's scope and tuple, with the URL `_api_url(end_point)` |
| Client.BaseDomainClient.PrepareTwice | domain/base.py:80-105 | when a first request mints a token, a second request for the same end point fails |
| Permissions.Permissions | domain/packages/permissions.py:50-76 | an unknown first segment raises "no API scope recognised" naming it and the end point; a known one gets its scope with the tuple of the first matching table entry, or raises "no suitable package found" when none matches |
| Permissions.PermissionsMeaning | domain/packages/permissions.py:50-76 | a result is returned exactly when the first segment has a scope and some table entry matches at the start; it is that segment's scope and the tuple of the earliest such entry |
| Permissions.LiteralMatches | domain/packages/permissions.py:71 | `re.match` of a literal pattern succeeds exactly when the pattern is a prefix |
| Permissions.FirstPlan | domain/packages/permissions.py:70-74 | the `for … else` returns the first matching entry, and none exactly when no entry matches |
| Permissions.PlanTableMatches | domain/packages/permissions.py:15-34 | every literal entry matches exactly the end points it prefixes; the price estimate entry only matches `properties/…` |
| Permissions.RequiredScopeNames | domain/packages/permissions.py:36-48 | every scope of the scope table is a non-empty word without spaces |
| Permissions.ScopeNamesPlain | domain/packages/permissions.py:65-76 | every scope `permissions` returns can be requested on its own |
| Permissions.LeadingSlashIgnored | domain/packages/permissions.py:63 | a leading slash does not change the result |
| Permissions.ScopeDependsOnFirstSegment | domain/packages/permissions.py:64-68 | two end points with the same first segment get the same scope when both resolve, and both fail when that segment has no scope |
| Permissions.ShadowedEntries | domain/packages/permissions.py:27-31 | the price estimate and `_suggest` entries are never chosen |
| Permissions.ListingsStatistics | domain/packages/permissions.py:23-24 | `listings/statistics…` needs `api_listings_read` and the Agents and Listings business package |
| Permissions.OtherListings | domain/packages/permissions.py:25-26 | every other `listings` end point needs the free Agents and Listings package |
| Permissions.AllProperties | domain/packages/permissions.py:27-31 | every `properties` end point resolves to the generic `properties` entry |
| Permissions.AddressLocators | domain/packages/permissions.py:16 | `addressLocators` end points need `api_addresslocators_read` and the business Property and Locations package |
| Permissions.Demographics | domain/packages/permissions.py:21 | `demographics` end points need `api_demographics_read` and the business Property and Locations package |
| Permissions.Disclaimers | domain/packages/permissions.py:22 | `disclaimers` end points need `api_properties_read` and the business Property and Locations package |
| Permissions.PropertyReportsUnserved | domain/packages/permissions.py:13-34 | `propertyReports` has a scope but no table entry, so it always raises "no suitable package found" |
| Permissions.SalesResults | domain/packages/permissions.py:32 | every `salesResults/…` end point needs `api_salesresults_read` and the free Property and Locations package |
| Permissions.SalesResultsSydney | domain/packages/permissions.py:50-76 | `salesResults/Sydney` resolves to the sales results scope and the Property and Locations package |
| Permissions.Agencies | domain/packages/permissions.py:17 | every `agencies/…` end point, statistics included, is served by the free Agents and Listings package |
| Permissions.AgencyStatistics | domain/packages/permissions.py:17 | `agencies/99/statistics` resolves to `api_agencies_read` and the free package |
| Packages.AgentsListingsScopes | domain/packages/agents_listings.py:16 | the free Agents and Listings package grants exactly the agencies and listings scopes |
| Packages.AgentsListingsBusinessExtendsFree | domain/packages/agents_listings.py:28-29 | the business edition adds property reports, and only that, to the free scopes |
| Packages.PropertyLocationTable | domain/packages/property_location.py:16-36 | six distinct scopes without property reports; the business class inherits them unchanged |
| Packages.BusinessSubclassesFree | domain/packages/property_location.py:27 | each business class is an instance of its free class, never the reverse |
| TokenMint.RequestedScopesRule | domain/packages/base.py:32-34 | falsy scopes request every available scope, and a lone string requests itself |
| TokenMint.ScopeFieldRoundTrip | domain/packages/base.py:39 | splitting the posted scope field on spaces gives back the requested scopes |
| TokenMint.AuthorizationValueParts | domain/packages/base.py:66-69 | the header value is the token type, one space, then the access token |
| TokenMint.HttpSession.Update | domain/packages/base.py:77-80 | `headers.update` overrides the given keys and keeps the rest |
| PackageBase.NewPackage | domain/packages/base.py:14-48 | the issuer is asked with the credentials and the requested scopes; a refusal raises its HTTP status; otherwise a fresh package records the class, time, scopes and token, with no session |
| PackageBase.BasePackage.Session | domain/packages/base.py:72-81 | the first read creates a session with the token headers, later reads return the same session |
| PackageBase.SessionReadTwice | domain/packages/base.py:72-81 | two reads give the same session |
| PackageBase.ValidUntilExpiry | domain/packages/base.py:57-60 | `is_token_valid` holds up to and including the expiry instant and never after |
| PackageBase.ValidityMonotone | domain/packages/base.py:57-60 | validity only goes from true to false as time passes |
| Plans.PlanTables | domain/plans.py:68-88 | the two plan classes offer the same scopes as the free package classes |
| Plans.NewPlan | domain/plans.py:13-35 | as `NewPackage`, for a plan class |
| Plans.BaseAPIPlan.Session | domain/plans.py:56-64 | the session is created on first read and cached |
| Plans.ExpiredFromExpiry | domain/plans.py:43-45 | `has_token_expired` holds from the expiry instant on and never before |
| Plans.ExpiryBoundaryDisagrees | domain/plans.py:43-45 | a plan and a package with the same expiry agree at every instant except the expiry instant, where the package is still valid and the plan already expired |
| AuthTables.CrmOnly | domain/authorisation/packages.py:3-10 | "CRM" is the only package either table knows; it holds no scope and its rate is 2 |
| AuthTables.PlanTable | domain/authorisation/scopes.py:5-25 | four plans in order, each business plan holding its innovation plan's scopes and more |
| AuthTables.ExclusiveScopes | domain/authorisation/scopes.py:14-24 | property reports belong to the two business plans alone, suburb performance to the Property and Location business plan alone |
| AuthToken.Truncate | domain/authorisation/token.py:18 | `int` of a number rounds toward zero |
| AuthToken.TruncateFacts | domain/authorisation/token.py:18 | whole numbers are kept, and a rate between -1 and 1 becomes 0 and switches the throttle off |
| AuthToken.Token.constructor | domain/authorisation/token.py:8-19 | expiry is the construction time plus the lifetime; the scope string is split on spaces; the rate is truncated; the call queue is empty |
| AuthToken.Token.Headers | domain/authorisation/token.py:36-52 | the call waits as the throttle loop says, its time is recorded, and the authorisation headers are returned; a non-positive rate never waits; a queue of past times waits at most one second |
| AuthToken.ExpiredMonotone | domain/authorisation/token.py:22-24 | once expired, a token stays expired |
| AuthToken.HasAnyScopeMeaning | domain/authorisation/token.py:29-33 | `has_any_scope` holds exactly when `has_scope` holds for some requested scope |
| AuthToken.HasAnyScopeBase | domain/authorisation/token.py:32-33 | no scope is held out of an empty request, and a one-scope request is `has_scope` |
| AuthToken.HasAnyScopeConcat | domain/authorisation/token.py:32-33 | a request of two parts is met exactly when either part is |
| AuthToken.ScopeStringRoundTrip | domain/authorisation/token.py:14 | a token built from scopes joined with spaces holds exactly those scopes |
| AuthToken.ReprIsAuthorizationValue | domain/authorisation/token.py:26-27 | `__repr__` is the header value the first-generation classes build |
| Throttle.Drained | domain/authorisation/token.py:41-45 | after the loop the throttle no longer asks to wait |
| Throttle.WaitTurn | domain/authorisation/token.py:41-45 | the loop leaves the queue and the clock as the drained specification says |
| Throttle.DrainedSuffix | domain/authorisation/token.py:44 | the loop only drops times from the front |
| Throttle.DrainedClock | domain/authorisation/token.py:44-45 | the clock moves on by one second per dropped time |
| Throttle.NoThrottle | domain/authorisation/token.py:41 | a non-positive rate drops nothing and waits for nothing |
| Throttle.ShortQueueNoWait | domain/authorisation/token.py:42 | with at most `rate` times stored the call never waits |
| Throttle.AtMostOneWait | domain/authorisation/token.py:42-45 | when every stored time is in the past, the loop waits at most one second |
| Throttle.NextCallWaits | domain/authorisation/token.py:42-45 | the call after `rate + 1` simultaneous calls waits one second |
| Throttle.DrainKeepsSpacing | domain/authorisation/token.py:42-44 | dropping times keeps any `rate + 1` consecutive times at least a second apart |
| Throttle.AdmitKeepsSpacing | domain/authorisation/token.py:42-47 | a call that does not find exactly `rate` times left keeps the queue spaced |
| Throttle.DrainThenAppend | domain/authorisation/token.py:42-47 | the drained queue with the call's time appended stays spaced unless exactly `rate` times are left |
| Throttle.AsWrittenBurstBreaksSpacing | domain/authorisation/token.py:42 | with the default rate 2, three calls at the same instant are all admitted without waiting |
| Throttle.DrainedAtRate | domain/authorisation/token.py:42-45 | the corrected loop ends with no wait left and only drops times from the front |
| Throttle.AdmitAtRateKeepsSpacing | domain/authorisation/token.py:42-47 | under the corrected condition every call keeps the queue spaced: no second holds more than `rate` calls |
| Grant.ThrottleRateFor | domain/authorisation/grant.py:20-24 | an explicit rate is truncated; without one, "CRM" gets 2 and any other package raises `KeyError` |
| Grant.AuthorisationGrant.constructor | domain/authorisation/grant.py:10-24 | the fields are stored and the call queue is empty |
| Grant.NewGrant | domain/authorisation/grant.py:10-24 | a grant is built exactly when its rate can be found |
| Grant.DefaultRateOnlyForCrm | domain/authorisation/grant.py:20-21 | without an explicit rate only a "CRM" grant can be built, at rate 2 |
| Grant.AuthorisationGrant.DiscoverPackage | domain/authorisation/grant.py:27-31 | `discover_package` never names a package: it always raises `NotImplementedError("nope")` |
| Grant.AuthorisationGrant.Token | domain/authorisation/grant.py:55-61 | `token` never yields a token: `raise a` reads an undefined name and raises `NameError` for `a` |
| Grant.AuthorisationGrant.Scopes | domain/authorisation/grant.py:64-66 | "CRM" holds no scope; any other package raises `KeyError` |
| Grant.AuthorisationGrant.HasScope | domain/authorisation/grant.py:69-70 | `has_scope` answers only for "CRM", and then always false |
| Grant.AuthorisationGrant.TokenHeaders | domain/authorisation/grant.py:34-61 | the call is throttled and recorded as for a token, then `raise a` fails with `NameError` |
| ScopeGuard.SelectCredential | domain/authorisation/__init__.py:24-28 | the first credential whose token holds a required scope, none exactly when no credential does |
| ScopeGuard.Wrapped | domain/authorisation/__init__.py:19-33 | a token the caller gives is kept; otherwise the first qualifying credential's token is passed, or `AuthorisationException` with the scope tuple is raised |
| ScopeGuard.WrappedKeepsOtherArguments | domain/authorisation/__init__.py:21-27 | only `token` may differ: every other keyword argument is passed unchanged, and a supplied token always holds a required scope |
| ScopeGuard.NoScopesNeverAuthorised | domain/authorisation/__init__.py:24-31 | a method that requires no scope can never find a token |
| ScopeGuard.EarliestQualifyingCredential | domain/authorisation/__init__.py:24-27 | a qualifying credential is found, and no later one is chosen ahead of it |
| ScopeGuard.MessageShowsTuple | domain/authorisation/__init__.py:29-31 | the message shows the scope tuple as Python prints it, with the trailing comma of a 1-tuple |
| Validate.MatchIndex | domain/validate.py:9-12 | the first listed name with the input's lower-case form, none exactly when no name has it |
| Validate.MatchIndexCaseBlind | domain/validate.py:12 | the match depends on the input's lower-case form alone |
| Validate.CaseInsensitiveString | domain/validate.py:4-18 | `None` gives the default; otherwise the first listed item with the input's lower-case form, or the "unrecognised input" `ValueError` exactly when no item has it |
| Validate.CaseInsensitiveStable | domain/validate.py:4-18 | spellings differing in case give the same answer, and validating the answer gives it back |
| Validate.CanonicalSpelling | domain/validate.py:9-18 | over a table whose names differ in more than case, every spelling of a name finds that name |
| Validate.ListingType | domain/validate.py:22-37 | `None` gives `""`; otherwise the listed spelling, or "listing type must be one of: …" exactly when unlisted |
| Validate.ListingTypesCanonical | domain/validate.py:26 | every spelling of a listing type is answered with its listed spelling |
| Validate.City | domain/validate.py:113-115 | the answer is one of the five cities, the default for `None`, or a `ValueError` |
| Validate.CitiesCanonical | domain/validate.py:114 | every spelling of a city is answered with its listed spelling |
| Validate.SortShort | domain/validate.py:110 | `sorted` of at most two items: ascending and a permutation |
| Validate.IntegerRange | domain/validate.py:99-110 | a falsy entry gives the default twice; a number gives itself twice; more than two bounds raise the `ValueError`; otherwise the bounds in ascending order |
| Validate.RangeOrderBlind | domain/validate.py:107-110 | two bounds give the same range in either order |
| Validate.Validated | domain/validate.py:57-69 | the entries validate exactly when each is listed; the result is their listed spellings in order |
| Validate.FirstMissRaised | domain/validate.py:58-65 | the first unlisted entry decides the error |
| Validate.ValidateEntries | domain/validate.py:57-69 | the loop returns what the specification says |
| Validate.PropertyTypes | domain/validate.py:41-55 | as written: `None` gives `[""]`, every other input raises `NameError` for `unicode` |
| Validate.ListingAttributes | domain/validate.py:73-82 | as written: `None` gives `[""]`, every other input raises `NameError` for `unicode` |
| Validate.AdvertiserIds | domain/validate.py:118-124 | as written: `None` gives `[""]`, every other input raises `NameError` for `unicode` |
| Validate.PropertyTypesIntended | domain/validate.py:41-69 | as intended: a string is a one-item list, and each entry is validated against the property types with the function's own message |
| Validate.ListingAttributesIntended | domain/validate.py:73-96 | the same for the listing attributes |
| Validate.AdvertiserIdsIntended | domain/validate.py:118-126 | as intended: the identifiers as a list |
| Validate.OneEntryValidated | domain/validate.py:58-67 | one listed entry becomes the one-item list of its listed spelling |
| Validate.HouseAsWrittenAndIntended | domain/validate.py:41-69 | `property_types("house")` raises `NameError` as written, and gives `["House"]` as intended |
| Validate.UnknownEntryEscapes | domain/validate.py:60-62 | as written an unknown entry escapes with `list.index`'s own `ValueError`, which names the lower-cased entry (`'castle' is not in list` for `Castle`) |
| Validate.IntendedMessageRaised | domain/validate.py:58-65 | as intended the first unknown property type raises the function's own message |
| Autogen.ContributeMeaning | autogen.py:40-58 | a parameter contributes exactly when it has every looked-up key and is `in` the path or query; its code entry is its name, with `=None` on the optional ones |
| Autogen.ParseParams | autogen.py:40-60 | the parameters parse exactly when each contributes; the code entries are then one per parameter, in input order |
| Autogen.ParseKeys | autogen.py:57-58 | path parameters land in the path keys and the others in the query keys, each in input order |
| Autogen.ParsePathParams | autogen.py:20-62 | the loop, inserting each entry before `**kwargs`, returns what the specification says |
| Autogen.Kept | autogen.py:67 | every kept segment is an input segment not starting with `{`, and every such input segment is kept |
| Autogen.KeptOne | autogen.py:67 | a single segment is kept exactly when it does not start with `{` |
| Autogen.KeptConcat | autogen.py:67 | the filter distributes over concatenation, so the kept segments keep their input order |
| Autogen.ParseMethodName | autogen.py:65-67 | the method name is lower case |
| Autogen.SegmentsOfPath | autogen.py:66 | a path `/<version>/<rest>` has the segments of the rest |
| Autogen.NamesOfPath | autogen.py:65-77 | for such a path, the method name joins the non-template segments with `_` in lower case, and the versionless path is the rest |
| Autogen.MiddleTemplateDropped | autogen.py:66-67 | a template segment between two plain ones is left out of the method name but kept in the path |
| Autogen.AgencyListingsKept | autogen.py:67 | `/v1/agencies/{id}/listings` is named from `agencies` and `listings` |
| Autogen.ArgsRoundTrip | autogen.py:60 | reading back a `", "`-joined list of plain items gives the items |
| Autogen.ScopeArgsRoundTrip | autogen.py:82 | the `requires_scope` arguments name exactly the security entry's scopes, each double-quoted |
| Autogen.QueryParamsRoundTrip | autogen.py:78 | the payload passes each query key as a keyword argument of the same name |
| Autogen.OAuthScopes | autogen.py:82 | `security[0]["oauth2"]` is found exactly when each step exists; otherwise `KeyError` or `IndexError` |
| Autogen.Generated | autogen.py:70-100 | parameter errors come first, then `KeyError("summary")`, then the `security` lookup error; otherwise a result is returned, holding the summary, the description (`""` when absent), the parsed signature, docstring parameters, payload and scopes, the method name and the versionless path |
| Autogen.AutogenMethodCode | autogen.py:70-100 | the method returns what the specification says |

## Left out

- HTTP is not modelled. The token POST, `session.get` in `_api_request` (domain/base.py:108-121) and `raise_for_status` are an issuer function and an `HttpError` status, or are left out.
- The environment is passed in as a map, and the logger is a boolean field.
- Time is whole seconds. `time()` is a `Clock` or an `int` argument, and `sleep` advances the clock exactly.
- Concurrency is not modelled: two threads sharing a throttle queue are out of scope.
- `domain/newclient.py`, `domain/client.py`, `how-much.py` and `setup.py` are not part of this model.
- The `autogen` driver (autogen.py:104-120) is not part of this model. It fetches the Swagger document over HTTP and prints.
- The template text and string layout of `autogen_method_code` are not modelled. Only the parts filled into the template are.
- `setattr(method, "_api_scopes_", scopes)` (domain/authorisation/__init__.py:16) is not modelled. It only tags the function object.
- The `exceptions` module is not part of this model. `AuthorisationException` is an error tag carrying its message.
- Only ASCII case folding is modelled. `str.lower` on non-ASCII letters and the escaping `repr` applies to quotes are not.
- The validators only take strings, lists of strings and `None`. The model does not handle `str(entry)` of other objects or `f"{string}"` of non-strings.
- `AuthToken.Truncate`: does not model `int()` on strings or the `ValueError` it raises there; a rate is a number.
- `Validate.IntegerRange`: the falsy default case models an integer `default_value` only. The returned tuple is a sequence, so the 1-tuple of a 1-element list is a one-item sequence.
- `Client.BaseDomainClient.Acquire`: the issuer reply's JSON decoding errors are not modelled.
- `Throttle.WaitTurn`: the deque is a sequence handed in and out rather than updated in place; `Token.Headers` and `AuthorisationGrant.TokenHeaders` store it back.

## Findings

| source | as written | input that shows it | evidently intended | confidence | as-written member | corrected member |
|---|---|---|---|---|---|---|
| domain/authorisation/token.py:42 | the loop waits only while more than `rate` times are stored (`>`), so `rate + 1` calls pass within one second; grant.py:40 does the same | three calls at the same instant with the default rate 2: all three are admitted, none waits | `>=`: no second holds more than `rate` calls | not executed; medium | Throttle.AsWrittenBurstBreaksSpacing | Throttle.AdmitAtRateKeepsSpacing |
| domain/base.py:93 | the reuse test reads `isinstance(plan, …)`, and `plan` is unbound until the mint loop runs | a second `_prepare_request("salesResults/Sydney")` after a first that minted a token | `isinstance(token, accessible_plans)`: reuse the stored token | not executed; high | Client.ReuseAlwaysFails | Client.MintedTokenReused |
| domain/validate.py:54 | `unicode` is not a Python 3 name, so every non-`None` input raises `NameError`; lines 81 and 123 do the same | `property_types("house")` | `isinstance(entries, str)` | not executed; high | Validate.HouseAsWrittenAndIntended | Validate.PropertyTypesIntended |
| domain/validate.py:62 | the handler catches `IndexError`, but `list.index` raises `ValueError`, so the custom message is never raised; line 89 does the same | `property_types(["Castle"])` once line 54 is fixed | `except ValueError` | not executed; high | Validate.UnknownEntryEscapes | Validate.IntendedMessageRaised |

The client classes keep the code as written: `Token.Headers` and `AuthorisationGrant.TokenHeaders` run the throttle as written, and `BaseDomainClient.PrepareRequest` fails on reuse. The corrected definitions stand beside them.
