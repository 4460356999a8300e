/** The static tables of the authorisation generation:
    `domain/authorisation/packages.py` (scopes and throttle rates by package
    name) and `domain/authorisation/scopes.py` (the scopes of each plan, in
    order). */
module AuthTables {

  /** `packages.scopes`. */
  const PackageScopes: map<string, seq<string>> := map["CRM" := []]

  /** `packages.throttle_rates`. */
  const ThrottleRates: map<string, int> := map["CRM" := 2]

  /** "CRM" is the only package either table knows; it holds no scope and
      is throttled at two calls. */
  lemma CrmOnly(name: string, scope: string)
    ensures name in PackageScopes <==> name == "CRM"
    ensures name in ThrottleRates <==> name == "CRM"
    ensures scope !in PackageScopes["CRM"]
    ensures ThrottleRates["CRM"] == 2
  {
  }

  /** `package_plan_scopes`, in its insertion order. */
  const PackagePlanScopes: seq<(string, seq<string>)> := [
    ("AgentsAndListingsInnovationPlan", ["api_agencies_read", "api_listings_read"]),
    ("PropertyAndLocationInnovationPlan", ["api_properties_read", "api_salesresults_read"]),
    ("AgentsAndListingsBusinessPlan",
      ["api_agencies_read", "api_listings_read", "api_propertyreports_read"]),
    ("PropertyAndLocationBusinessPlan",
      ["api_properties_read", "api_salesresults_read", "api_propertyreports_read",
       "api_suburbperformance_read"])
  ]

  /** Every scope of one scope list is in the other. */
  predicate Within(a: seq<string>, b: seq<string>)
  {
    forall i :: 0 <= i < |a| ==> a[i] in b
  }

  /** Four plans, in the order Agents and Listings Innovation, Property and
      Location Innovation, then the two Business plans; each Innovation plan
      is within its Business plan. */
  lemma PlanTable()
    ensures |PackagePlanScopes| == 4
    ensures PackagePlanScopes[0].0 == "AgentsAndListingsInnovationPlan"
    ensures PackagePlanScopes[1].0 == "PropertyAndLocationInnovationPlan"
    ensures PackagePlanScopes[2].0 == "AgentsAndListingsBusinessPlan"
    ensures PackagePlanScopes[3].0 == "PropertyAndLocationBusinessPlan"
    ensures Within(PackagePlanScopes[0].1, PackagePlanScopes[2].1)
    ensures Within(PackagePlanScopes[1].1, PackagePlanScopes[3].1)
    ensures !Within(PackagePlanScopes[2].1, PackagePlanScopes[0].1)
    ensures !Within(PackagePlanScopes[3].1, PackagePlanScopes[1].1)
  {
    assert PackagePlanScopes[2].1[2] !in PackagePlanScopes[0].1;
    assert PackagePlanScopes[3].1[2] !in PackagePlanScopes[1].1;
  }

  /** Property reports belong to the two Business plans alone, and suburb
      performance to the Property and Location Business plan alone. */
  lemma ExclusiveScopes(i: nat)
    requires i < |PackagePlanScopes|
    ensures "api_propertyreports_read" in PackagePlanScopes[i].1 <==> i == 2 || i == 3
    ensures "api_suburbperformance_read" in PackagePlanScopes[i].1 <==> i == 3
  {
  }
}
