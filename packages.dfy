/** The four API package classes of the first client generation and the
    scopes each may request (`available_scopes`). */
module Packages {
  import opened Wrappers

  /** The concrete subclasses of `BasePackage`. */
  datatype PackageClass =
    | AgentsListingsPackage
    | AgentsListingsBusinessPackage
    | PropertyLocationPackage
    | PropertyLocationBusinessPackage

  /** The class a package class inherits from, below `BasePackage`. */
  function Parent(p: PackageClass): Option<PackageClass>
  {
    match p
    case AgentsListingsBusinessPackage => Some(AgentsListingsPackage)
    case PropertyLocationBusinessPackage => Some(PropertyLocationPackage)
    case _ => None
  }

  /** `isinstance(x, c)` for an instance `x` of class `p`. */
  predicate IsInstance(p: PackageClass, c: PackageClass)
  {
    p == c || Parent(p) == Some(c)
  }

  /** A business-plan edition of a package. */
  predicate IsBusiness(p: PackageClass)
  {
    p == AgentsListingsBusinessPackage || p == PropertyLocationBusinessPackage
  }

  /** The class attribute `available_scopes`; the Property and Locations
      business class declares none of its own and inherits its parent's. */
  function AvailableScopes(p: PackageClass): seq<string>
  {
    match p
    case AgentsListingsPackage => ["api_agencies_read", "api_listings_read"]
    case AgentsListingsBusinessPackage =>
      ["api_agencies_read", "api_listings_read", "api_propertyreports_read"]
    case PropertyLocationPackage => PropertyLocationScopes
    case PropertyLocationBusinessPackage => PropertyLocationScopes
  }

  /** `PropertyLocationPackage.available_scopes` (property reports is
      commented out in the tuple). */
  const PropertyLocationScopes: seq<string> :=
    ["api_addresslocators_read", "api_demographics_read", "api_properties_read",
     "api_listings_read", "api_salesresults_read", "api_suburbperformance_read"]

  /** The free Agents and Listings package grants exactly the agencies and
      listings scopes. */
  lemma AgentsListingsScopes()
    ensures |AvailableScopes(AgentsListingsPackage)| == 2
    ensures forall s :: s in AvailableScopes(AgentsListingsPackage)
                   <==> s == "api_agencies_read" || s == "api_listings_read"
  {
  }

  /** The business edition adds property reports, and only that, to the free
      edition's scopes. */
  lemma AgentsListingsBusinessExtendsFree()
    ensures forall s :: s in AvailableScopes(AgentsListingsBusinessPackage)
                   <==> s in AvailableScopes(AgentsListingsPackage) || s == "api_propertyreports_read"
    ensures "api_propertyreports_read" !in AvailableScopes(AgentsListingsPackage)
  {
  }

  /** The Property and Locations package has six distinct scopes, without
      property reports; its business edition has exactly the same tuple. */
  lemma PropertyLocationTable()
    ensures |AvailableScopes(PropertyLocationPackage)| == 6
    ensures forall i, j :: 0 <= i < j < 6 ==>
      AvailableScopes(PropertyLocationPackage)[i] != AvailableScopes(PropertyLocationPackage)[j]
    ensures "api_propertyreports_read" !in AvailableScopes(PropertyLocationPackage)
    ensures AvailableScopes(PropertyLocationBusinessPackage) == AvailableScopes(PropertyLocationPackage)
    ensures "api_listings_read" in AvailableScopes(PropertyLocationPackage)
    ensures "api_listings_read" in AvailableScopes(AgentsListingsPackage)
  {
  }

  /** Each business class is an instance of its free class, never the reverse. */
  lemma BusinessSubclassesFree()
    ensures IsInstance(AgentsListingsBusinessPackage, AgentsListingsPackage)
    ensures IsInstance(PropertyLocationBusinessPackage, PropertyLocationPackage)
    ensures !IsInstance(AgentsListingsPackage, AgentsListingsBusinessPackage)
    ensures !IsInstance(PropertyLocationPackage, PropertyLocationBusinessPackage)
  {
  }
}
