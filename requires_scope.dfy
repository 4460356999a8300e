/** `domain/authorisation/__init__.py`: the `requires_scope(*scopes)`
    decorator. The wrapped method is called with a copy of its keyword
    arguments in which `token` is set to the token of the first credential
    that holds any of the required scopes, unless the caller passed a token. */
module ScopeGuard {
  import opened Wrappers
  import opened Search
  import opened Strings
  import opened AuthToken

  /** A keyword argument: `None`, a token, or any other value. */
  datatype KwArg = NoneArg | TokenArg(token: Token) | OtherArg(text: string)

  /** One entry of `self._credentials`, reduced to its `token`. */
  datatype Credential = Credential(token: Token)

  /** The message of the `AuthorisationException`. */
  function NoTokenMessage(scopes: seq<string>): string
  {
    "no authorised token found for the required scopes (" + TupleRepr(scopes) + ")"
  }

  /** The `for … else` over the credentials. */
  function SelectCredential(credentials: seq<Credential>, scopes: seq<string>): (r: Option<nat>)
    ensures r.Some? ==> r.value < |credentials| && credentials[r.value].token.HasAnyScope(scopes)
    ensures r.Some? ==> forall j :: 0 <= j < r.value ==> !credentials[j].token.HasAnyScope(scopes)
    ensures r.None? <==> forall j :: 0 <= j < |credentials| ==> !credentials[j].token.HasAnyScope(scopes)
  {
    var r := FirstIndex(credentials, (c: Credential) => c.token.HasAnyScope(scopes));
    assert r.Some? ==> credentials[r.value].token.HasAnyScope(scopes);
    assert forall j :: (0 <= j < |credentials| && (r.None? || j < r.value)
      ==> !credentials[j].token.HasAnyScope(scopes));
    r
  }

  /** `kwds.get("token", None) is None`. */
  predicate NeedsToken(kwargs: map<string, KwArg>)
  {
    "token" !in kwargs || kwargs["token"].NoneArg?
  }

  /** `wrapped(self, *args, **kwargs)`: the keyword arguments the decorated
      method is called with, or the exception raised instead of calling it. */
  function Wrapped(scopes: seq<string>, credentials: seq<Credential>, kwargs: map<string, KwArg>)
    : (r: Result<map<string, KwArg>>)
    ensures !NeedsToken(kwargs) ==> r == Ok(kwargs)
    ensures NeedsToken(kwargs) && SelectCredential(credentials, scopes).Some? ==>
              r == Ok(kwargs["token" := TokenArg(credentials[SelectCredential(credentials, scopes).value].token)])
    ensures NeedsToken(kwargs) && SelectCredential(credentials, scopes).None? ==>
              r == Err(AuthorisationException(NoTokenMessage(scopes)))
  {
    var kwds := kwargs;
    if NeedsToken(kwds) then
      match SelectCredential(credentials, scopes)
      case Some(i) => Ok(kwds["token" := TokenArg(credentials[i].token)])
      case None => Err(AuthorisationException(NoTokenMessage(scopes)))
    else Ok(kwds)
  }

  /** Only the `token` argument may differ: every other keyword argument
      reaches the method unchanged, and the token passed holds a required
      scope unless the caller chose it. */
  lemma WrappedKeepsOtherArguments(scopes: seq<string>, credentials: seq<Credential>,
                                   kwargs: map<string, KwArg>, key: string)
    requires Wrapped(scopes, credentials, kwargs).Ok?
    ensures var kwds := Wrapped(scopes, credentials, kwargs).value;
            && kwds.Keys == kwargs.Keys + {"token"}
            && (key in kwargs && key != "token" ==> kwds[key] == kwargs[key])
            && (NeedsToken(kwargs) ==>
                  kwds["token"].TokenArg? && kwds["token"].token.HasAnyScope(scopes))
            && (!NeedsToken(kwargs) ==> kwds == kwargs)
  {
  }

  /** Asking for no scope at all never finds a token. */
  lemma NoScopesNeverAuthorised(credentials: seq<Credential>, kwargs: map<string, KwArg>)
    requires NeedsToken(kwargs)
    ensures Wrapped([], credentials, kwargs) == Err(AuthorisationException(NoTokenMessage([])))
  {
    forall j | 0 <= j < |credentials|
      ensures !credentials[j].token.HasAnyScope([])
    {
      HasAnyScopeBase(credentials[j].token, "");
    }
  }

  /** A credential whose token holds one of the scopes is found, and no later
      one is chosen ahead of it. */
  lemma EarliestQualifyingCredential(credentials: seq<Credential>, scopes: seq<string>, k: nat)
    requires k < |credentials| && credentials[k].token.HasAnyScope(scopes)
    ensures SelectCredential(credentials, scopes).Some?
    ensures SelectCredential(credentials, scopes).value <= k
  {
  }

  /** The message names the scope tuple as Python prints it: a lone scope
      keeps the trailing comma of a 1-tuple, two scopes are separated by
      ", ". */
  lemma MessageShowsTuple(s: string, a: string, b: string)
    ensures NoTokenMessage([s])
         == "no authorised token found for the required scopes (" + "('" + s + "',)" + ")"
    ensures TupleRepr([a, b]) == "('" + a + "', '" + b + "')"
  {
    assert TupleRepr([s]) == "(" + "'" + s + "'" + ",)";
    assert "(" + "'" + s + "'" + ",)" == "('" + s + "',)";
    assert [a, b][1..] == [b];
    assert QuotedList([a, b]) == StrRepr(a) + ", " + StrRepr(b);
    assert "(" + ("'" + a + "'") + ", " + ("'" + b + "'") + ")" == "('" + a + "', '" + b + "')";
  }
}
