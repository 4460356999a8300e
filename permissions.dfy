/** `domain/packages/permissions.py`: which scope an API end point needs and
    which package classes may serve it. */
module Permissions {
  import opened Wrappers
  import opened Strings
  import opened Search
  import opened Packages

  /** One element of the regular expressions in the plan table: a literal
      character, `.` (any character but a newline), or `c+`. */
  datatype Atom = Char(c: char) | AnyChar | OneOrMore(c: char)

  type Pattern = seq<Atom>

  /** The pattern that matches the text `w` literally (`\/` is a literal `/`). */
  function Literal(w: string): (p: Pattern)
    ensures |p| == |w|
    ensures forall i :: 0 <= i < |w| ==> p[i] == Char(w[i])
  {
    seq(|w|, i requires 0 <= i < |w| => Char(w[i]))
  }

  /** `re.match(p, s)` succeeds: `p` matches some prefix of `s`. */
  predicate Matches(p: Pattern, s: string)
    decreases |s|
  {
    if |p| == 0 then true
    else if |s| == 0 then false
    else
      match p[0]
      case Char(c) => s[0] == c && Matches(p[1..], s[1..])
      case AnyChar => s[0] != '\n' && Matches(p[1..], s[1..])
      case OneOrMore(c) => s[0] == c && (Matches(p[1..], s[1..]) || Matches(p, s[1..]))
  }

  /** A literal pattern matches exactly the strings it is a prefix of. */
  lemma {:induction false} LiteralMatches(w: string, s: string)
    ensures Matches(Literal(w), s) <==> w <= s
    decreases |w|
  {
    if |w| > 0 && |s| > 0 {
      LiteralMatches(w[1..], s[1..]);
      assert Literal(w)[1..] == Literal(w[1..]);
      assert w <= s <==> w[0] == s[0] && w[1..] <= s[1..];
    }
  }

  /** A pattern that begins with a literal only matches strings beginning
      with that literal. */
  lemma {:induction false} LiteralHeadMatches(w: string, rest: Pattern, s: string)
    requires Matches(Literal(w) + rest, s)
    ensures w <= s
    decreases |w|
  {
    if |w| > 0 {
      assert (Literal(w) + rest)[0] == Char(w[0]);
      assert (Literal(w) + rest)[1..] == Literal(w[1..]) + rest;
      LiteralHeadMatches(w[1..], rest, s[1..]);
    }
  }

  /** `properties\/.s+\/priceEstimate`. */
  const PriceEstimatePattern: Pattern :=
    Literal("properties/") + [AnyChar, OneOrMore('s')] + Literal("/priceEstimate")

  /** `_REQUIRED_PLANS`, in declaration order. */
  const RequiredPlans: seq<(Pattern, seq<PackageClass>)> := [
    (Literal("addressLocators"), [PropertyLocationBusinessPackage]),
    (Literal("agencies"), [AgentsListingsPackage]),
    (Literal("me/agencies"), [PropertyLocationBusinessPackage, AgentsListingsBusinessPackage]),
    (Literal("agents"), [AgentsListingsPackage]),
    (Literal("demographics"), [PropertyLocationBusinessPackage]),
    (Literal("disclaimers"), [PropertyLocationBusinessPackage]),
    (Literal("listings/statistics"), [AgentsListingsBusinessPackage]),
    (Literal("listings/commercial"), [AgentsListingsPackage]),
    (Literal("listings"), [AgentsListingsPackage]),
    (Literal("properties"), [PropertyLocationPackage, AgentsListingsBusinessPackage]),
    (PriceEstimatePattern, [PropertyLocationBusinessPackage, AgentsListingsBusinessPackage]),
    (Literal("properties/_suggest"), [PropertyLocationPackage, AgentsListingsBusinessPackage]),
    (Literal("salesResults"), [PropertyLocationPackage]),
    (Literal("suburbPerformanceStatistics"), [PropertyLocationBusinessPackage])
  ]

  /** The literal text of every entry of the plan table but the price
      estimate one (index 10), which is a regular expression. */
  const LiteralPrefixes: seq<string> := [
    "addressLocators", "agencies", "me/agencies", "agents", "demographics",
    "disclaimers", "listings/statistics", "listings/commercial", "listings",
    "properties", "properties/", "properties/_suggest", "salesResults",
    "suburbPerformanceStatistics"
  ]

  /** `_REQUIRED_SCOPES`. */
  const RequiredScopes: map<string, string> := map[
    "addressLocators" := "api_addresslocators_read",
    "agencies" := "api_agencies_read",
    "agents" := "api_agencies_read",
    "demographics" := "api_demographics_read",
    "disclaimers" := "api_properties_read",
    "listings" := "api_listings_read",
    "me" := "api_agencies_read",
    "properties" := "api_properties_read",
    "propertyReports" := "api_propertyreports_read",
    "salesResults" := "api_salesresults_read",
    "suburbPerformanceStatistics" := "api_suburbperformance_read"
  ]

  /** The end point with its leading slashes removed. */
  function Stripped(apiEndPoint: string): string
  {
    LStrip(apiEndPoint, '/')
  }

  /** The first `/`-separated segment of the stripped end point. */
  function BasePoint(apiEndPoint: string): string
  {
    Split(Stripped(apiEndPoint), '/')[0]
  }

  predicate EntryMatches(entry: (Pattern, seq<PackageClass>), endPoint: string)
  {
    Matches(entry.0, endPoint)
  }

  /** The `for … else` search over the plan table: the index of the first
      entry whose pattern matches. */
  function FirstPlan(endPoint: string): (r: Option<nat>)
    ensures r.Some? ==> r.value < |RequiredPlans| && Matches(RequiredPlans[r.value].0, endPoint)
    ensures r.Some? ==> forall j :: 0 <= j < r.value ==> !Matches(RequiredPlans[j].0, endPoint)
    ensures r.None? ==> forall j :: 0 <= j < |RequiredPlans| ==> !Matches(RequiredPlans[j].0, endPoint)
  {
    var r := FirstIndex(RequiredPlans, entry => EntryMatches(entry, endPoint));
    assert r.Some? ==> EntryMatches(RequiredPlans[r.value], endPoint);
    assert forall j :: (0 <= j < |RequiredPlans| && (r.None? || j < r.value)
      ==> !EntryMatches(RequiredPlans[j], endPoint));
    r
  }

  /** `permissions(api_end_point)`: the required scope comes from the first
      segment, the package tuple from the first plan entry, in declaration
      order, whose pattern matches at the start of the end point. */
  function Permissions(apiEndPoint: string): (r: Result<(string, seq<PackageClass>)>)
    ensures BasePoint(apiEndPoint) !in RequiredScopes ==>
      r == Err(ValueError("no API scope recognised for end point " + BasePoint(apiEndPoint)
                          + " (" + Stripped(apiEndPoint) + ")"))
    ensures r.Ok? ==> BasePoint(apiEndPoint) in RequiredScopes && FirstPlan(Stripped(apiEndPoint)).Some?
    ensures BasePoint(apiEndPoint) in RequiredScopes && FirstPlan(Stripped(apiEndPoint)).Some? ==>
      r == Ok((RequiredScopes[BasePoint(apiEndPoint)], RequiredPlans[FirstPlan(Stripped(apiEndPoint)).value].1))
    ensures BasePoint(apiEndPoint) in RequiredScopes && FirstPlan(Stripped(apiEndPoint)).None? ==>
      r == Err(ValueError("no suitable package found for end point " + Stripped(apiEndPoint)))
  {
    var endPoint := Stripped(apiEndPoint);
    var basePoint := BasePoint(apiEndPoint);
    if basePoint !in RequiredScopes then
      Err(ValueError("no API scope recognised for end point " + basePoint + " (" + endPoint + ")"))
    else
      match FirstPlan(endPoint)
      case None => Err(ValueError("no suitable package found for end point " + endPoint))
      case Some(i) => Ok((RequiredScopes[basePoint], RequiredPlans[i].1))
  }

  /** An end point is served exactly when its first segment has a scope and
      some plan entry matches; the scope is that of the first segment and the
      tuple that of the first matching entry, in declaration order. */
  lemma PermissionsMeaning(apiEndPoint: string)
    ensures Permissions(apiEndPoint).Ok? <==>
      BasePoint(apiEndPoint) in RequiredScopes
      && exists i :: 0 <= i < |RequiredPlans| && Matches(RequiredPlans[i].0, Stripped(apiEndPoint))
    ensures Permissions(apiEndPoint).Ok? ==>
      Permissions(apiEndPoint).value.0 == RequiredScopes[BasePoint(apiEndPoint)]
    ensures Permissions(apiEndPoint).Ok? ==>
      exists i :: 0 <= i < |RequiredPlans| && Matches(RequiredPlans[i].0, Stripped(apiEndPoint))
                  && Permissions(apiEndPoint).value.1 == RequiredPlans[i].1
                  && (forall j :: 0 <= j < i ==> !Matches(RequiredPlans[j].0, Stripped(apiEndPoint)))
  {
    var f := FirstPlan(Stripped(apiEndPoint));
    if f.Some? {
      assert Matches(RequiredPlans[f.value].0, Stripped(apiEndPoint));
    }
  }

  /** Every scope of `_REQUIRED_SCOPES` is a non-empty word without spaces. */
  lemma RequiredScopeNames()
    ensures forall b :: b in RequiredScopes ==> RequiredScopes[b] != "" && ' ' !in RequiredScopes[b]
  {
    forall b | b in RequiredScopes
      ensures RequiredScopes[b] != "" && ' ' !in RequiredScopes[b]
    {
      assert RequiredScopes[b] in {"api_addresslocators_read", "api_agencies_read",
        "api_demographics_read", "api_properties_read", "api_listings_read",
        "api_propertyreports_read", "api_salesresults_read", "api_suburbperformance_read"};
    }
  }

  /** So every scope `permissions` returns can be requested on its own. */
  lemma ScopeNamesPlain(apiEndPoint: string)
    ensures Permissions(apiEndPoint).Ok? ==>
      Permissions(apiEndPoint).value.0 != "" && ' ' !in Permissions(apiEndPoint).value.0
  {
    RequiredScopeNames();
  }

  /** Every literal entry of the plan table matches exactly the end points it
      prefixes; the price estimate entry only matches end points that
      `properties/` prefixes. */
  lemma PlanTableMatches(s: string)
    ensures forall i :: 0 <= i < |RequiredPlans| && i != 10 ==>
      (Matches(RequiredPlans[i].0, s) <==> LiteralPrefixes[i] <= s)
    ensures Matches(RequiredPlans[10].0, s) ==> LiteralPrefixes[10] <= s
  {
    forall i | 0 <= i < |RequiredPlans| && i != 10
      ensures Matches(RequiredPlans[i].0, s) <==> LiteralPrefixes[i] <= s
    {
      assert RequiredPlans[i].0 == Literal(LiteralPrefixes[i]);
      LiteralMatches(LiteralPrefixes[i], s);
    }
    if Matches(RequiredPlans[10].0, s) {
      assert RequiredPlans[10].0 == Literal("properties/") + ([AnyChar, OneOrMore('s')] + Literal("/priceEstimate"));
      LiteralHeadMatches("properties/", [AnyChar, OneOrMore('s')] + Literal("/priceEstimate"), s);
    }
  }

  /** The first segment is a prefix of the stripped end point. */
  lemma {:induction false} FirstPieceIsPrefix(s: string, c: char)
    ensures Split(s, c)[0] <= s
    decreases |s|
  {
    if |s| > 0 {
      FirstPieceIsPrefix(s[1..], c);
    }
  }

  /** Leading slashes are ignored. */
  lemma LeadingSlashIgnored(apiEndPoint: string)
    ensures Permissions("/" + apiEndPoint) == Permissions(apiEndPoint)
  {
    assert ("/" + apiEndPoint)[1..] == apiEndPoint;
    assert Stripped("/" + apiEndPoint) == Stripped(apiEndPoint);
  }

  /** The scope depends on the first segment alone: two end points with the
      same first segment get the same scope when both resolve, and both fail
      when that segment has no scope. */
  lemma ScopeDependsOnFirstSegment(e1: string, e2: string)
    requires BasePoint(e1) == BasePoint(e2)
    ensures Permissions(e1).Ok? && Permissions(e2).Ok? ==>
              Permissions(e1).value.0 == Permissions(e2).value.0
    ensures BasePoint(e1) !in RequiredScopes ==> Permissions(e1).Err? && Permissions(e2).Err?
  {
  }

  /** The price estimate and suggestion entries are never chosen: the
      generic `properties` entry before them matches whatever they match. */
  lemma ShadowedEntries(s: string)
    ensures FirstPlan(s) != Some(10) && FirstPlan(s) != Some(11)
  {
    PlanTableMatches(s);
    if Matches(RequiredPlans[10].0, s) || Matches(RequiredPlans[11].0, s) {
      assert LiteralPrefixes[9] <= LiteralPrefixes[10] <= LiteralPrefixes[11];
      assert Matches(RequiredPlans[9].0, s);
    }
  }

  /** Facts about a stripped end point whose first segment is `w`. */
  lemma BasePointPrefix(apiEndPoint: string)
    ensures BasePoint(apiEndPoint) <= Stripped(apiEndPoint)
  {
    FirstPieceIsPrefix(Stripped(apiEndPoint), '/');
  }

  /** A string differing from `s` at a common position is no prefix of it. */
  lemma NotPrefixAt(w: string, s: string, i: nat)
    requires i < |w| && i < |s| && w[i] != s[i]
    ensures !(w <= s)
  {
  }

  /** The first matching entry is the literal entry `k` when `k` is the first
      literal entry that prefixes the end point. */
  lemma FirstEntry(e: string, k: nat)
    requires k < |RequiredPlans| && k != 10
    requires LiteralPrefixes[k] <= e
    requires forall j :: 0 <= j < k ==> !(LiteralPrefixes[j] <= e)
    ensures FirstPlan(e) == Some(k)
  {
    PlanTableMatches(e);
  }

  /** An end point whose first segment has a scope is served by the first
      literal entry that prefixes it. */
  lemma ResolvedBy(apiEndPoint: string, k: nat)
    requires BasePoint(apiEndPoint) in RequiredScopes
    requires k < |RequiredPlans| && k != 10
    requires LiteralPrefixes[k] <= Stripped(apiEndPoint)
    requires forall j :: 0 <= j < k ==> !(LiteralPrefixes[j] <= Stripped(apiEndPoint))
    ensures Permissions(apiEndPoint)
         == Ok((RequiredScopes[BasePoint(apiEndPoint)], RequiredPlans[k].1))
  {
    FirstEntry(Stripped(apiEndPoint), k);
  }

  /** No literal entry before index `k` starts with the character `c`. */
  lemma FirstCharRulesOut(e: string, k: nat)
    requires k <= |LiteralPrefixes| && |e| > 0
    requires forall j :: 0 <= j < k ==> LiteralPrefixes[j][0] != e[0]
    ensures forall j :: 0 <= j < k ==> !(LiteralPrefixes[j] <= e)
  {
    forall j | 0 <= j < k
      ensures !(LiteralPrefixes[j] <= e)
    {
      NotPrefixAt(LiteralPrefixes[j], e, 0);
    }
  }

  /** An end point that starts with neither a slash nor ... is its own
      stripped form. */
  lemma StrippedNoSlash(e: string)
    requires |e| > 0 && e[0] != '/'
    ensures Stripped(e) == e
  {
  }

  /** An end point `w/rest` whose first segment `w` is slash-free. */
  lemma SegmentFacts(w: string, rest: string)
    requires |w| > 0 && '/' !in w
    ensures Stripped(w + "/" + rest) == w + "/" + rest
    ensures BasePoint(w + "/" + rest) == w
    ensures w <= Stripped(w + "/" + rest)
  {
    var e := w + "/" + rest;
    assert e[0] == w[0];
    StrippedNoSlash(e);
    assert e == w + ['/'] + rest;
    FirstPiece(w, '/', rest);
  }

  /** `listings/statistics…` needs the Agents and Listings business package. */
  lemma ListingsStatistics(rest: string)
    ensures Permissions("listings/statistics" + rest)
         == Ok(("api_listings_read", [AgentsListingsBusinessPackage]))
  {
    var e := "listings/statistics" + rest;
    SegmentFacts("listings", "statistics" + rest);
    assert e == "listings" + "/" + ("statistics" + rest);
    assert e[0] == 'l';
    FirstCharRulesOut(e, 6);
    assert LiteralPrefixes[6] <= e by {
      assert e[..19] == "listings/statistics";
    }
    ResolvedBy(e, 6);
  }

  /** Every other `listings` end point needs the free Agents and Listings
      package. */
  lemma OtherListings(apiEndPoint: string)
    requires BasePoint(apiEndPoint) == "listings"
    requires !("listings/statistics" <= Stripped(apiEndPoint))
    ensures Permissions(apiEndPoint) == Ok(("api_listings_read", [AgentsListingsPackage]))
  {
    var e := Stripped(apiEndPoint);
    assert forall j :: 0 <= j < 7 ==> !(LiteralPrefixes[j] <= e) by {
      BasePointPrefix(apiEndPoint);
      assert e[0] == 'l';
      FirstCharRulesOut(e, 6);
    }
    var k := if LiteralPrefixes[7] <= e then 7 else 8;
    assert LiteralPrefixes[k] <= e by {
      BasePointPrefix(apiEndPoint);
    }
    ResolvedBy(apiEndPoint, k);
    assert RequiredScopes["listings"] == "api_listings_read";
  }

  /** Every `properties` end point, the price estimate and suggestion ones
      included, resolves to the generic `properties` entry. */
  lemma AllProperties(apiEndPoint: string)
    requires BasePoint(apiEndPoint) == "properties"
    ensures Permissions(apiEndPoint)
         == Ok(("api_properties_read", [PropertyLocationPackage, AgentsListingsBusinessPackage]))
  {
    var e := Stripped(apiEndPoint);
    BasePointPrefix(apiEndPoint);
    assert e[0] == 'p';
    FirstCharRulesOut(e, 9);
    ResolvedBy(apiEndPoint, 9);
  }

  /** `addressLocators` end points need the business Property and Locations
      package. */
  lemma AddressLocators(apiEndPoint: string)
    requires BasePoint(apiEndPoint) == "addressLocators"
    ensures Permissions(apiEndPoint)
         == Ok(("api_addresslocators_read", [PropertyLocationBusinessPackage]))
  {
    BasePointPrefix(apiEndPoint);
    ResolvedBy(apiEndPoint, 0);
  }

  /** `demographics` end points need the business Property and Locations
      package. */
  lemma Demographics(apiEndPoint: string)
    requires BasePoint(apiEndPoint) == "demographics"
    ensures Permissions(apiEndPoint)
         == Ok(("api_demographics_read", [PropertyLocationBusinessPackage]))
  {
    var e := Stripped(apiEndPoint);
    BasePointPrefix(apiEndPoint);
    assert e[0] == 'd';
    FirstCharRulesOut(e, 4);
    ResolvedBy(apiEndPoint, 4);
  }

  /** `disclaimers` end points need the properties scope and the business
      Property and Locations package. */
  lemma Disclaimers(apiEndPoint: string)
    requires BasePoint(apiEndPoint) == "disclaimers"
    ensures Permissions(apiEndPoint)
         == Ok(("api_properties_read", [PropertyLocationBusinessPackage]))
  {
    var e := Stripped(apiEndPoint);
    BasePointPrefix(apiEndPoint);
    assert e[0] == 'd' && e[1] == 'i';
    FirstCharRulesOut(e, 4);
    NotPrefixAt(LiteralPrefixes[4], e, 1);
    ResolvedBy(apiEndPoint, 5);
  }

  /** `propertyReports` has a scope but no plan entry, so it always fails. */
  lemma PropertyReportsUnserved(apiEndPoint: string)
    requires BasePoint(apiEndPoint) == "propertyReports"
    ensures Permissions(apiEndPoint)
         == Err(ValueError("no suitable package found for end point " + Stripped(apiEndPoint)))
  {
    var e := Stripped(apiEndPoint);
    assert forall i :: 0 <= i < |LiteralPrefixes| ==> !(LiteralPrefixes[i] <= e) by {
      BasePointPrefix(apiEndPoint);
      assert e[..15] == "propertyReports";
      assert e[0] == 'p' && e[7] == 'y';
      FirstCharRulesOut(e, 9);
      forall i | 9 <= i < |LiteralPrefixes|
        ensures !(LiteralPrefixes[i] <= e)
      {
        if i < 12 {
          NotPrefixAt(LiteralPrefixes[i], e, 7);
        } else {
          NotPrefixAt(LiteralPrefixes[i], e, 0);
        }
      }
    }
    assert FirstPlan(e).None? by {
      PlanTableMatches(e);
    }
    assert "propertyReports" in RequiredScopes;
  }

  /** Every `salesResults/…` end point needs the sales results scope and the
      free Property and Locations package. */
  lemma SalesResults(rest: string)
    ensures Permissions("salesResults/" + rest)
         == Ok(("api_salesresults_read", [PropertyLocationPackage]))
  {
    var e := "salesResults/" + rest;
    SegmentFacts("salesResults", rest);
    assert e == "salesResults" + "/" + rest;
    FirstCharRulesOut(e, 12);
    ResolvedBy(e, 12);
  }

  /** `salesResults/Sydney`, the worked example. */
  lemma SalesResultsSydney()
    ensures Permissions("salesResults/Sydney")
         == Ok(("api_salesresults_read", [PropertyLocationPackage]))
  {
    var e := "salesResults/Sydney";
    assert e == "salesResults/" + "Sydney";
    SalesResults("Sydney");
  }

  /** Every `agencies/…` end point, statistics included, is served by the
      free Agents and Listings package: no entry restricts it to the business
      edition. */
  lemma Agencies(rest: string)
    ensures Permissions("agencies/" + rest)
         == Ok(("api_agencies_read", [AgentsListingsPackage]))
  {
    var e := "agencies/" + rest;
    SegmentFacts("agencies", rest);
    assert e == "agencies" + "/" + rest;
    NotPrefixAt(LiteralPrefixes[0], e, 1);
    ResolvedBy(e, 1);
  }

  /** `agencies/99/statistics`, the worked example. */
  lemma AgencyStatistics()
    ensures Permissions("agencies/99/statistics")
         == Ok(("api_agencies_read", [AgentsListingsPackage]))
  {
    var e := "agencies/99/statistics";
    assert e == "agencies/" + "99/statistics";
    Agencies("99/statistics");
  }
}
