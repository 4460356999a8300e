/** `autogen.py`: the code generator that turns one path of the API's
    Swagger description into the source of a client method. Modelled are
    the parameter list, the method name, the path, and the query and scope
    argument strings it builds. */
module Autogen {
  import opened Wrappers
  import opened Strings
  import opened Search

  /** A value of a parameter description: a string or a flag. */
  datatype Field = Text(text: string) | Flag(flag: bool)
  {
    /** `str.format` of the value. */
    function Format(): string
    {
      match this
      case Text(t) => t
      case Flag(b) => if b then "True" else "False"
    }

    /** Python truthiness of the value. */
    predicate Truthy()
    {
      match this
      case Text(t) => t != ""
      case Flag(b) => b
    }
  }

  /** One parameter description: a dictionary of fields. */
  type Param = map<string, Field>

  /** What one parameter contributes. */
  datatype Contribution = Contribution(code: string, docParam: string, docType: string,
                                       name: string, inPath: bool)

  /** The accumulated results of `parse_path_params`, `**kwargs` aside. */
  datatype Parsed = Parsed(params: seq<string>, docParam: string, docType: string,
                           pathKeys: seq<string>, queryKeys: seq<string>)

  /** `code_param_template` filled in. */
  function CodeParam(name: string, required: bool): string
  {
    name + (if required then "" else "=None")
  }

  /** `doc_param_template` filled in. */
  function DocParam(name: string, optional: string, description: string): string
  {
    "\n        :param " + name + ": " + optional + "\n            " + description + ".\n        "
  }

  /** `doc_type_template` filled in. */
  function DocType(name: string, kind: string, format: string): string
  {
    "\n        :type " + name + ":\n            " + kind + " " + format + "\n        "
  }

  /** The keys one pass of the loop reads, in the order it reads them:
      `required`, then the fields of the two documentation templates, then
      `in`. */
  const LookedUp: seq<string> := ["required", "name", "description", "type", "in"]

  /** One pass of the loop of `parse_path_params`: each look-up in the
      order the code makes it, a missing key raising `KeyError`. */
  function Contribute(p: Param): Result<Contribution>
  {
    match FirstIndex(LookedUp, (key: string) => key !in p)
    case Some(i) => Err(KeyError(LookedUp[i]))
    case None =>
      if p["in"] == Text("path") || p["in"] == Text("query") then
        var required := p["required"].Truthy();
        var name := p["name"].Format();
        var format := if "format" in p then p["format"].Format() else "";
        Ok(Contribution(CodeParam(name, required),
                        DocParam(name, if required then "" else "[optional]",
                                 p["description"].Format()),
                        DocType(name, p["type"].Format(), format),
                        name, p["in"] == Text("path")))
      else Err(KeyError(p["in"].Format()))
  }

  /** A parameter contributes exactly when it has every key the templates
      and the `in` look-up need and is `in` the path or the query; its
      code entry is its name, with `=None` when it is not required. */
  lemma ContributeMeaning(p: Param)
    ensures var r := Contribute(p);
            && (r.Ok? ==>
                  && "required" in p && "name" in p && "in" in p
                  && r.value.name == p["name"].Format()
                  && r.value.code == CodeParam(r.value.name, p["required"].Truthy())
                  && (r.value.inPath <==> p["in"] == Text("path"))
                  && (!r.value.inPath <==> p["in"] == Text("query")))
            && (r.Err? <==>
                  "required" !in p || "name" !in p || "description" !in p || "type" !in p
                  || "in" !in p || p["in"] !in {Text("path"), Text("query")})
  {
    var m := FirstIndex(LookedUp, (key: string) => key !in p);
    if m.None? {
      assert forall i :: 0 <= i < |LookedUp| ==> LookedUp[i] in p;
      assert LookedUp[0] == "required" && LookedUp[1] == "name" && LookedUp[2] == "description";
      assert LookedUp[3] == "type" && LookedUp[4] == "in";
    }
  }

  /** The results after one more parameter. */
  function Add(acc: Parsed, c: Contribution): Parsed
  {
    Parsed(acc.params + [c.code], acc.docParam + c.docParam, acc.docType + c.docType,
           if c.inPath then acc.pathKeys + [c.name] else acc.pathKeys,
           if c.inPath then acc.queryKeys else acc.queryKeys + [c.name])
  }

  /** What each parameter contributes, in input order. */
  function Contributions(ps: seq<Param>): (cs: seq<Result<Contribution>>)
    ensures |cs| == |ps| && forall k :: 0 <= k < |ps| ==> cs[k] == Contribute(ps[k])
  {
    seq(|ps|, k requires 0 <= k < |ps| => Contribute(ps[k]))
  }

  /** The results of contributions taken in order; the first that fails
      decides the error. */
  function Fold(cs: seq<Result<Contribution>>): Result<Parsed>
    decreases |cs|
  {
    if cs == [] then Ok(Parsed([], "", "", [], []))
    else
      match Fold(cs[..|cs| - 1])
      case Err(e) => Err(e)
      case Ok(acc) =>
        match cs[|cs| - 1]
        case Err(e) => Err(e)
        case Ok(c) => Ok(Add(acc, c))
  }

  /** The results for a list of parameters. */
  function Parse(ps: seq<Param>): Result<Parsed>
  {
    Fold(Contributions(ps))
  }

  /** An error on a prefix is the error of the whole list. */
  lemma {:induction false} FoldErrorPersists(cs: seq<Result<Contribution>>, k: nat)
    requires k <= |cs| && Fold(cs[..k]).Err?
    ensures Fold(cs) == Fold(cs[..k])
    decreases |cs| - k
  {
    if k < |cs| {
      assert cs[..k + 1][..k] == cs[..k];
      FoldErrorPersists(cs, k + 1);
    } else {
      assert cs[..k] == cs;
    }
  }

  /** One more contribution taken. */
  lemma FoldStep(cs: seq<Result<Contribution>>, i: nat)
    requires i < |cs|
    ensures Fold(cs[..i + 1])
         == match Fold(cs[..i])
            case Err(e) => Err(e)
            case Ok(acc) => (match cs[i] case Err(e) => Err(e) case Ok(c) => Ok(Add(acc, c)))
  {
    assert cs[..i + 1][..i] == cs[..i];
  }

  /** The contributions succeed together exactly when each one does. */
  lemma {:induction false} FoldOk(cs: seq<Result<Contribution>>)
    ensures Fold(cs).Ok? <==> forall k :: 0 <= k < |cs| ==> cs[k].Ok?
    decreases |cs|
  {
    if cs != [] {
      var init := cs[..|cs| - 1];
      FoldOk(init);
      assert forall k :: 0 <= k < |init| ==> init[k] == cs[k];
    }
  }

  /** One code entry per contribution, in order. */
  lemma {:induction false} FoldParams(cs: seq<Result<Contribution>>)
    requires Fold(cs).Ok?
    ensures |Fold(cs).value.params| == |cs|
    ensures forall k :: 0 <= k < |cs| ==> cs[k].Ok? && Fold(cs).value.params[k] == cs[k].value.code
    decreases |cs|
  {
    if cs != [] {
      var init := cs[..|cs| - 1];
      var last := cs[|cs| - 1];
      assert Fold(init).Ok? && last.Ok?;
      var params := Fold(init).value.params;
      assert Fold(cs).value.params == params + [last.value.code];
      FoldParams(init);
      forall k | 0 <= k < |cs|
        ensures cs[k].Ok? && Fold(cs).value.params[k] == cs[k].value.code
      {
        if k < |init| {
          assert init[k] == cs[k];
        }
      }
    }
  }

  /** The names of the contributions in the path (or else the query), in order. */
  function Names(cs: seq<Result<Contribution>>, inPath: bool): seq<string>
    decreases |cs|
  {
    if cs == [] then []
    else
      var c := cs[|cs| - 1];
      Names(cs[..|cs| - 1], inPath) + (if c.Ok? && c.value.inPath == inPath then [c.value.name] else [])
  }

  /** The path keys are the names of the path contributions and the query
      keys those of the others, each in order. */
  lemma {:induction false} FoldKeys(cs: seq<Result<Contribution>>)
    requires Fold(cs).Ok?
    ensures Fold(cs).value.pathKeys == Names(cs, true)
    ensures Fold(cs).value.queryKeys == Names(cs, false)
    decreases |cs|
  {
    if cs != [] {
      FoldKeys(cs[..|cs| - 1]);
    }
  }

  /** The parameter list parses exactly when every parameter contributes;
      it then holds one entry per parameter, in input order, that entry
      being the parameter's name with `=None` on exactly the optional ones. */
  lemma ParseParams(ps: seq<Param>)
    ensures Parse(ps).Ok? <==> forall k :: 0 <= k < |ps| ==> Contribute(ps[k]).Ok?
    ensures Parse(ps).Ok? ==>
              && |Parse(ps).value.params| == |ps|
              && forall k :: 0 <= k < |ps| ==>
                   && "name" in ps[k] && "required" in ps[k]
                   && Parse(ps).value.params[k]
                      == CodeParam(ps[k]["name"].Format(), ps[k]["required"].Truthy())
  {
    var cs := Contributions(ps);
    FoldOk(cs);
    if Parse(ps).Ok? {
      FoldParams(cs);
      forall k | 0 <= k < |ps|
        ensures "name" in ps[k] && "required" in ps[k]
        ensures Parse(ps).value.params[k]
             == CodeParam(ps[k]["name"].Format(), ps[k]["required"].Truthy())
      {
        ContributeMeaning(ps[k]);
      }
    }
  }

  /** A parameter `in` the path lands in the path keys, one `in` the query
      in the query keys, each in input order. */
  lemma ParseKeys(ps: seq<Param>)
    requires Parse(ps).Ok?
    ensures Parse(ps).value.pathKeys == Names(Contributions(ps), true)
    ensures Parse(ps).value.queryKeys == Names(Contributions(ps), false)
    ensures forall k :: 0 <= k < |ps| ==>
              && Contribute(ps[k]).Ok? && "in" in ps[k] && "name" in ps[k]
              && (Contribute(ps[k]).value.inPath <==> ps[k]["in"] == Text("path"))
              && Contribute(ps[k]).value.name == ps[k]["name"].Format()
  {
    var cs := Contributions(ps);
    FoldKeys(cs);
    FoldOk(cs);
    forall k | 0 <= k < |ps|
      ensures Contribute(ps[k]).Ok? && "in" in ps[k] && "name" in ps[k]
      ensures Contribute(ps[k]).value.inPath <==> ps[k]["in"] == Text("path")
      ensures Contribute(ps[k]).value.name == ps[k]["name"].Format()
    {
      assert cs[k] == Contribute(ps[k]);
      ContributeMeaning(ps[k]);
    }
  }

  /** `", ".join(code_param)`. */
  function Signature(params: seq<string>): string
  {
    Join(params + ["**kwargs"], ", ")
  }

  /** What `parse_path_params` returns. */
  datatype ParamStrings = ParamStrings(signature: string, docParam: string, docType: string,
                                       pathKeys: seq<string>, queryKeys: seq<string>)

  /** The tuple `parse_path_params` returns for parsed results. */
  function Returned(r: Result<Parsed>): Result<ParamStrings>
  {
    match r
    case Err(e) => Err(e)
    case Ok(p) => Ok(ParamStrings(Signature(p.params), p.docParam, p.docType, p.pathKeys, p.queryKeys))
  }

  /** One pass of the loop of `parse_path_params` on its variables: the
      code entry is inserted before the last one and the rest appended. */
  lemma InsertStep(cs: seq<Result<Contribution>>, i: nat, codeParam: seq<string>, docParam: string,
                   docType: string, pathKeys: seq<string>, queryKeys: seq<string>, c: Contribution)
    requires i < |cs| && cs[i] == Ok(c) && |codeParam| >= 1
    requires Fold(cs[..i]) == Ok(Parsed(codeParam[..|codeParam| - 1], docParam, docType, pathKeys, queryKeys))
    ensures var next := codeParam[..|codeParam| - 1] + [c.code] + [codeParam[|codeParam| - 1]];
            Fold(cs[..i + 1])
            == Ok(Parsed(next[..|next| - 1], docParam + c.docParam, docType + c.docType,
                         if c.inPath then pathKeys + [c.name] else pathKeys,
                         if c.inPath then queryKeys else queryKeys + [c.name]))
  {
    FoldStep(cs, i);
    var front := codeParam[..|codeParam| - 1];
    var next := front + [c.code] + [codeParam[|codeParam| - 1]];
    assert next[..|next| - 1] == front + [c.code];
  }

  /** The prefix of a sequence as long as the sequence is the sequence. */
  lemma TakeAll<T>(s: seq<T>)
    ensures s[..|s|] == s
  {
  }

  /** A non-empty sequence is its front followed by its last element. */
  lemma LastSplit<T>(s: seq<T>)
    requires |s| >= 1
    ensures s == s[..|s| - 1] + [s[|s| - 1]]
  {
  }

  /** `parse_path_params(parameters)`: `code_param` starts as `["**kwargs"]`
      and each parameter is inserted before its last entry. */
  method ParsePathParams(parameters: seq<Param>) returns (r: Result<ParamStrings>)
    ensures r == Returned(Parse(parameters))
  {
    ghost var cs := Contributions(parameters);
    var pathKeys: seq<string> := [];
    var queryKeys: seq<string> := [];
    var codeParam: seq<string> := ["**kwargs"];
    var docParam, docType := "", "";
    var i := 0;
    while i < |parameters|
      invariant 0 <= i <= |parameters|
      invariant |codeParam| >= 1 && codeParam[|codeParam| - 1] == "**kwargs"
      invariant Fold(cs[..i])
             == Ok(Parsed(codeParam[..|codeParam| - 1], docParam, docType, pathKeys, queryKeys))
    {
      var c := Contribute(parameters[i]);
      if c.Err? {
        FoldStep(cs, i);
        FoldErrorPersists(cs, i + 1);
        return Err(c.error);
      }
      InsertStep(cs, i, codeParam, docParam, docType, pathKeys, queryKeys, c.value);
      codeParam := codeParam[..|codeParam| - 1] + [c.value.code] + [codeParam[|codeParam| - 1]];
      docParam := docParam + c.value.docParam;
      docType := docType + c.value.docType;
      if c.value.inPath {
        pathKeys := pathKeys + [c.value.name];
      } else {
        queryKeys := queryKeys + [c.value.name];
      }
      i := i + 1;
    }
    TakeAll(cs);
    LastSplit(codeParam);
    r := Ok(ParamStrings(Join(codeParam, ", "), docParam, docType, pathKeys, queryKeys));
  }

  /** `item.startswith("{")`: a path template variable. */
  predicate IsTemplate(item: string)
  {
    |item| > 0 && item[0] == '{'
  }

  /** The items that are not template variables, in order. */
  function Kept(items: seq<string>): (r: seq<string>)
    ensures forall i :: 0 <= i < |r| ==> !IsTemplate(r[i]) && r[i] in items
    ensures forall i :: 0 <= i < |items| && !IsTemplate(items[i]) ==> items[i] in r
    ensures |r| <= |items|
  {
    if items == [] then []
    else (if IsTemplate(items[0]) then [] else [items[0]]) + Kept(items[1..])
  }

  /** A single segment is kept exactly when it is not a template variable. */
  lemma KeptOne(item: string)
    ensures Kept([item]) == if IsTemplate(item) then [] else [item]
  {
    assert [item][1..] == [];
  }

  /** Keeping distributes over concatenation, so the kept segments stay in
      their input order. */
  lemma {:induction false} KeptConcat(a: seq<string>, b: seq<string>)
    ensures Kept(a + b) == Kept(a) + Kept(b)
    decreases |a|
  {
    if a == [] {
      assert a + b == b;
    } else {
      assert (a + b)[0] == a[0];
      assert (a + b)[1..] == a[1..] + b;
      KeptConcat(a[1..], b);
    }
  }

  /** `path.strip("/").split("/")[1:]`: the path without its version. */
  function Segments(path: string): seq<string>
  {
    Split(Strip(path, '/'), '/')[1..]
  }

  /** `parse_method_name(path)`. */
  function ParseMethodName(path: string): (r: string)
    ensures Lower(r) == r
  {
    LowerIdempotent(Join(Kept(Segments(path)), "_"));
    Lower(Join(Kept(Segments(path)), "_"))
  }

  /** The `versionless_path` of `autogen_method_code`. */
  function VersionlessPath(path: string): string
  {
    Join(Segments(path), "/")
  }

  /** A path `/<version>/<rest>` whose rest does not end in "/" has the
      segments of the rest. */
  lemma SegmentsOfPath(version: string, segments: seq<string>)
    requires version != [] && '/' !in version
    requires |segments| >= 1 && forall i :: 0 <= i < |segments| ==> '/' !in segments[i]
    requires Join(segments, "/") != [] && Join(segments, "/")[|Join(segments, "/")| - 1] != '/'
    ensures Segments("/" + version + "/" + Join(segments, "/")) == segments
  {
    var rest := Join(segments, "/");
    var x := version + "/" + rest;
    assert x[0] == version[0];
    assert x[|x| - 1] == rest[|rest| - 1];
    assert "/" + version + "/" + rest == ['/'] + x;
    StripAround(x, '/');
    SplitAfterPiece(version, '/', rest);
    SplitJoin(segments, '/');
    assert Split(x, '/') == [version] + segments;
  }

  /** The method name of such a path is built from its segments, and its
      versionless path is the rest itself. */
  lemma NamesOfPath(version: string, segments: seq<string>)
    requires version != [] && '/' !in version
    requires |segments| >= 1 && forall i :: 0 <= i < |segments| ==> '/' !in segments[i]
    requires Join(segments, "/") != [] && Join(segments, "/")[|Join(segments, "/")| - 1] != '/'
    ensures ParseMethodName("/" + version + "/" + Join(segments, "/"))
         == Lower(Join(Kept(segments), "_"))
    ensures VersionlessPath("/" + version + "/" + Join(segments, "/")) == Join(segments, "/")
  {
    SegmentsOfPath(version, segments);
  }

  /** A template segment between two plain ones is dropped from the name
      but kept in the path. */
  lemma MiddleTemplateDropped(a: string, t: string, b: string)
    requires !IsTemplate(a) && IsTemplate(t) && !IsTemplate(b)
    ensures Kept([a, t, b]) == [a, b]
    ensures Join([a, t, b], "/") == a + "/" + t + "/" + b
  {
    var segments := [a, t, b];
    assert segments[1..] == [t, b] && segments[2..] == [b];
    assert Join(segments[1..], "/") == t + "/" + b;
    assert Kept(segments[1..]) == [b];
  }

  /** In `/v1/agencies/{id}/listings` the template segment is dropped:
      the method is named from `agencies` and `listings`. */
  lemma AgencyListingsKept()
    ensures Kept(["agencies", "{id}", "listings"]) == ["agencies", "listings"]
    ensures Join(["agencies", "{id}", "listings"], "/") == "agencies/{id}/listings"
  {
    MiddleTemplateDropped("agencies", "{id}", "listings");
  }

  /** The items, each wrapped in double quotes. */
  function Quoted(items: seq<string>): (r: seq<string>)
    ensures |r| == |items| && forall i :: 0 <= i < |items| ==> r[i] == "\"" + items[i] + "\""
  {
    if items == [] then [] else ["\"" + items[0] + "\""] + Quoted(items[1..])
  }

  /** The argument list of `@requires_scope(...)`: the first security
      entry's `oauth2` scopes, each double-quoted, joined by ", ". */
  function ScopeArgs(scopes: seq<string>): string
  {
    Join(Quoted(scopes), ", ")
  }

  /** `key=key` for each query key: the keyword arguments of `dict(...)`. */
  function Assignments(keys: seq<string>): (r: seq<string>)
    ensures |r| == |keys| && forall i :: 0 <= i < |keys| ==> r[i] == keys[i] + "=" + keys[i]
  {
    if keys == [] then [] else [keys[0] + "=" + keys[0]] + Assignments(keys[1..])
  }

  /** `query_params_repr`. */
  function QueryParamsRepr(keys: seq<string>): string
  {
    Join(Assignments(keys), ", ")
  }

  /** The items read back from a comma-separated argument list. */
  function ReadArgs(text: string): seq<string>
  {
    StripEach(Split(text, ','))
  }

  /** Each piece with its spaces stripped. */
  function StripEach(pieces: seq<string>): (r: seq<string>)
    ensures |r| == |pieces| && forall i :: 0 <= i < |pieces| ==> r[i] == Strip(pieces[i], ' ')
  {
    if pieces == [] then [] else [Strip(pieces[0], ' ')] + StripEach(pieces[1..])
  }

  /** Each item after the first, with the space of the separator. */
  function Spaced(items: seq<string>): (r: seq<string>)
    ensures |r| == |items| && forall i :: 0 <= i < |items| ==> r[i] == " " + items[i]
  {
    if items == [] then [] else [" " + items[0]] + Spaced(items[1..])
  }

  /** `", ".join` is `",".join` with a space before every item but the first. */
  lemma {:induction false} JoinCommaSpace(items: seq<string>)
    requires |items| >= 1
    ensures Join(items, ", ") == Join([items[0]] + Spaced(items[1..]), ",")
    decreases |items|
  {
    if |items| >= 2 {
      var tail := items[1..];
      JoinCommaSpace(tail);
      assert tail[1..] == items[2..];
      LeadingSpaceJoin(tail[0], Spaced(tail[1..]));
      assert ([items[0]] + Spaced(tail))[1..] == Spaced(tail);
      assert Spaced(tail) == [" " + tail[0]] + Spaced(tail[1..]);
    }
  }

  /** A space before the first item moves out of the join. */
  lemma LeadingSpaceJoin(first: string, rest: seq<string>)
    ensures Join([" " + first] + rest, ",") == " " + Join([first] + rest, ",")
  {
    if |rest| > 0 {
      assert ([" " + first] + rest)[1..] == rest;
      assert ([first] + rest)[1..] == rest;
    }
  }

  /** An item the argument list can carry: non-empty, without a comma and
      without a space at either end. */
  predicate Plain(item: string)
  {
    item != [] && ',' !in item && item[0] != ' ' && item[|item| - 1] != ' '
  }

  /** The pieces of `", ".join(items)` split at commas. */
  function Pieces(items: seq<string>): seq<string>
    requires |items| >= 1
  {
    [items[0]] + Spaced(items[1..])
  }

  /** Splitting the argument list at its commas gives the pieces. */
  lemma SplitArgs(items: seq<string>)
    requires |items| >= 1 && forall i :: 0 <= i < |items| ==> ',' !in items[i]
    ensures Split(Join(items, ", "), ',') == Pieces(items)
  {
    var pieces := Pieces(items);
    JoinCommaSpace(items);
    forall i | 0 <= i < |pieces|
      ensures ',' !in pieces[i]
    {
      if i > 0 {
        assert pieces[i] == " " + items[i];
      }
    }
    SplitJoin(pieces, ',');
  }

  /** Stripping spaces from one piece gives back its item. */
  lemma StripPiece(items: seq<string>, i: nat)
    requires i < |items| && Plain(items[i])
    ensures Strip(Pieces(items)[i], ' ') == items[i]
  {
    var x := items[i];
    var p := Pieces(items);
    StripAround(x, ' ');
    if i == 0 {
      assert p[i] == x;
    } else {
      assert p[i] == [' '] + x by {
        assert p[i] == Spaced(items[1..])[i - 1];
        assert items[1..][i - 1] == x;
      }
    }
  }

  /** Stripping spaces from each piece gives back the items. */
  lemma StripPieces(items: seq<string>)
    requires |items| >= 1 && forall i :: 0 <= i < |items| ==> Plain(items[i])
    ensures StripEach(Pieces(items)) == items
  {
    var r := StripEach(Pieces(items));
    forall i | 0 <= i < |items|
      ensures r[i] == items[i]
    {
      StripPiece(items, i);
    }
  }

  /** Reading a generated argument list gives back its items. */
  lemma ArgsRoundTrip(items: seq<string>)
    requires |items| >= 1 && forall i :: 0 <= i < |items| ==> Plain(items[i])
    ensures ReadArgs(Join(items, ", ")) == items
  {
    SplitArgs(items);
    StripPieces(items);
  }

  /** A quoted scope is a plain item whose quotes strip off again. */
  lemma QuotedScope(scope: string)
    requires scope != [] && ',' !in scope && ' ' !in scope && '"' !in scope
    ensures Plain("\"" + scope + "\"")
    ensures Strip("\"" + scope + "\"", '"') == scope
  {
    var q := "\"" + scope + "\"";
    assert Plain(q) by {
      assert q == ['"'] + scope + ['"'];
    }
    assert Strip(q, '"') == scope by {
      assert q == ['"'] + scope + ['"'];
      assert scope[0] in scope && scope[|scope| - 1] in scope;
      StripAround(scope, '"');
    }
  }

  /** The scope string of a method names exactly the scopes of its
      security entry, each in double quotes, when no scope holds a comma,
      a space or a quote. */
  lemma ScopeArgsRoundTrip(scopes: seq<string>)
    requires |scopes| >= 1
    requires forall i :: 0 <= i < |scopes| ==> scopes[i] != [] && ',' !in scopes[i]
                                               && ' ' !in scopes[i] && '"' !in scopes[i]
    ensures ReadArgs(ScopeArgs(scopes)) == Quoted(scopes)
    ensures forall i :: 0 <= i < |scopes| ==> Strip(Quoted(scopes)[i], '"') == scopes[i]
  {
    var q := Quoted(scopes);
    forall i | 0 <= i < |q|
      ensures Plain(q[i]) && Strip(q[i], '"') == scopes[i]
    {
      QuotedScope(scopes[i]);
    }
    ArgsRoundTrip(q);
  }

  /** The payload passes each query key as a keyword argument of the same
      name. */
  lemma QueryParamsRoundTrip(keys: seq<string>)
    requires |keys| >= 1
    requires forall i :: 0 <= i < |keys| ==> keys[i] != [] && ',' !in keys[i] && ' ' !in keys[i]
    ensures ReadArgs(QueryParamsRepr(keys)) == Assignments(keys)
  {
    var a := Assignments(keys);
    forall i | 0 <= i < |a|
      ensures Plain(a[i])
    {
      assert a[i] == keys[i] + "=" + keys[i];
      assert a[i][0] == keys[i][0];
      assert a[i][|a[i]| - 1] == keys[i][|keys[i]| - 1];
    }
    ArgsRoundTrip(a);
  }

  /** The `method_kwds` of one path: each entry present or not. */
  datatype MethodSpec = MethodSpec(parameters: Option<seq<Param>>, summary: Option<string>,
                                   description: Option<string>,
                                   security: Option<seq<map<string, seq<string>>>>)
  {
    /** `method_kwds.get("parameters", [])`. */
    function Parameters(): seq<Param>
    {
      if parameters.Some? then parameters.value else []
    }

    /** `method_kwds.get("description", "")`. */
    function Description(): string
    {
      if description.Some? then description.value else ""
    }
  }

  /** The parts `autogen_method_code` fills into its template. */
  datatype MethodCode = MethodCode(scopes: string, name: string, signature: string,
                                   summary: string, description: string, docParam: string,
                                   payload: string, path: string)

  /** `method_kwds["security"][0]["oauth2"]`. */
  function OAuthScopes(security: Option<seq<map<string, seq<string>>>>): (r: Result<seq<string>>)
    ensures r.Ok? <==> security.Some? && |security.value| > 0 && "oauth2" in security.value[0]
  {
    match security
    case None => Err(KeyError("security"))
    case Some(entries) =>
      if |entries| == 0 then Err(IndexError("list index out of range"))
      else if "oauth2" !in entries[0] then Err(KeyError("oauth2"))
      else Ok(entries[0]["oauth2"])
  }

  /** The parts of the generated method, or the error raised first: the
      parameters are parsed before `summary` and `security` are read. */
  function Generated(path: string, spec: MethodSpec): (r: Result<MethodCode>)
    ensures var parsed := Parse(spec.Parameters());
            && (parsed.Err? ==> r == Err(parsed.error))
            && (parsed.Ok? && spec.summary.None? ==> r == Err(KeyError("summary")))
            && (parsed.Ok? && spec.summary.Some? && OAuthScopes(spec.security).Err? ==>
                  r == Err(OAuthScopes(spec.security).error))
            && (parsed.Ok? && spec.summary.Some? && OAuthScopes(spec.security).Ok? ==>
                  && r.Ok? && r.value.summary == spec.summary.value
                  && r.value.description == spec.Description()
                  && r.value.docParam == parsed.value.docParam)
            && (r.Ok? ==>
                  && parsed.Ok? && spec.summary.Some? && OAuthScopes(spec.security).Ok?
                  && r.value.name == ParseMethodName(path) && r.value.path == VersionlessPath(path)
                  && r.value.signature == Signature(parsed.value.params)
                  && r.value.payload == QueryParamsRepr(parsed.value.queryKeys)
                  && r.value.scopes == ScopeArgs(OAuthScopes(spec.security).value))
  {
    match Parse(spec.Parameters())
    case Err(e) => Err(e)
    case Ok(parsed) =>
      match spec.summary
      case None => Err(KeyError("summary"))
      case Some(summary) =>
        match OAuthScopes(spec.security)
        case Err(e) => Err(e)
        case Ok(scopes) =>
          Ok(MethodCode(ScopeArgs(scopes), ParseMethodName(path), Signature(parsed.params),
                        summary, spec.Description(), parsed.docParam,
                        QueryParamsRepr(parsed.queryKeys), VersionlessPath(path)))
  }

  /** `autogen_method_code(path, method_kwds)`, its template text aside. */
  method AutogenMethodCode(path: string, spec: MethodSpec) returns (r: Result<MethodCode>)
    ensures r == Generated(path, spec)
  {
    var params := ParsePathParams(spec.Parameters());
    if params.Err? {
      return Err(params.error);
    }
    if spec.summary.None? {
      return Err(KeyError("summary"));
    }
    var scopes := OAuthScopes(spec.security);
    if scopes.Err? {
      return Err(scopes.error);
    }
    var p := params.value;
    r := Ok(MethodCode(ScopeArgs(scopes.value), ParseMethodName(path), p.signature,
                       spec.summary.value, spec.Description(), p.docParam,
                       QueryParamsRepr(p.queryKeys), VersionlessPath(path)));
  }
}
