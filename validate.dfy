/** `domain/validate.py`: the argument validators of the endpoint wrappers.
    Names are matched case-insensitively against fixed tables and come back
    in the table's own spelling; ranges are normalised to sorted tuples. */
module Validate {
  import opened Wrappers
  import opened Strings
  import opened Search

  /** The `available` argument: a list or a tuple of names, which differ
      only in how the error message prints them. */
  datatype Choices = ListOf(items: seq<string>) | TupleOf(items: seq<string>)
  {
    function Repr(): string
    {
      match this
      case ListOf(items) => ListRepr(items)
      case TupleOf(items) => TupleRepr(items)
    }
  }

  /** `[each.lower() for each in available].index(s.lower())`, or `None`
      where `index` would raise. */
  function MatchIndex(s: string, available: seq<string>): (r: Option<nat>)
    ensures r.Some? ==> r.value < |available| && Lower(available[r.value]) == Lower(s)
    ensures r.Some? ==> forall j :: 0 <= j < r.value ==> Lower(available[j]) != Lower(s)
    ensures r.None? <==> forall j :: 0 <= j < |available| ==> Lower(available[j]) != Lower(s)
  {
    FirstIndex(available, (a: string) => Lower(a) == Lower(s))
  }

  /** The match depends on the input's lower-case form alone. */
  lemma MatchIndexCaseBlind(s: string, t: string, available: seq<string>)
    requires Lower(s) == Lower(t)
    ensures MatchIndex(s, available) == MatchIndex(t, available)
  {
    var r := MatchIndex(s, available);
    if r.Some? {
      FirstIndexUnique(available, (a: string) => Lower(a) == Lower(t), r.value);
    } else {
      assert MatchIndex(t, available).None?;
    }
  }

  /** `case_insensitive_string(string, available, default)`. */
  function CaseInsensitiveString(s: Option<string>, available: Choices, default: Option<string>)
    : (r: Result<Option<string>>)
    ensures s.None? ==> r == Ok(default)
    ensures s.Some? && r.Ok? ==>
              r.value.Some? && r.value.value in available.items
              && Lower(r.value.value) == Lower(s.value)
    ensures s.Some? && r.Ok? ==>
              exists k :: 0 <= k < |available.items| && r.value.value == available.items[k]
                          && Lower(available.items[k]) == Lower(s.value)
                          && forall j :: 0 <= j < k ==> Lower(available.items[j]) != Lower(s.value)
    ensures s.Some? ==>
              (r.Err? <==> forall i :: 0 <= i < |available.items| ==>
                             Lower(available.items[i]) != Lower(s.value))
    ensures r.Err? ==>
              r.error == ValueError("unrecognised input ('" + s.value + "') - must be in "
                                    + available.Repr())
  {
    match s
    case None => Ok(default)
    case Some(text) =>
      match MatchIndex(text, available.items)
      case None =>
        Err(ValueError("unrecognised input ('" + text + "') - must be in " + available.Repr()))
      case Some(i) => Ok(Some(available.items[i]))
  }

  /** Validating a validated name gives it back, and every spelling of one
      name gives the same result. */
  lemma {:induction false} CaseInsensitiveStable(s: string, t: string, available: Choices,
                                                 default: Option<string>, other: Option<string>)
    requires Lower(s) == Lower(t)
    ensures CaseInsensitiveString(Some(s), available, default).Ok?
         == CaseInsensitiveString(Some(t), available, other).Ok?
    ensures CaseInsensitiveString(Some(s), available, default).Ok? ==>
              (CaseInsensitiveString(Some(s), available, default)
               == CaseInsensitiveString(Some(t), available, other))
    ensures CaseInsensitiveString(Some(s), available, default).Ok? ==>
              (var v := CaseInsensitiveString(Some(s), available, default).value.value;
               CaseInsensitiveString(Some(v), available, other) == Ok(Some(v)))
  {
    MatchIndexCaseBlind(s, t, available.items);
    var m := MatchIndex(s, available.items);
    if m.Some? {
      MatchIndexCaseBlind(s, available.items[m.value], available.items);
    }
  }

  /** A table whose names differ in more than case. */
  predicate CaseDistinct(items: seq<string>)
  {
    forall i, j :: 0 <= i < j < |items| ==> Lower(items[i]) != Lower(items[j])
  }

  /** Over such a table, every spelling of a listed name is accepted and
      answered with the listed spelling. */
  lemma {:induction false} CanonicalSpelling(items: seq<string>, k: nat, s: string)
    requires CaseDistinct(items) && k < |items| && Lower(s) == Lower(items[k])
    ensures MatchIndex(s, items) == Some(k)
  {
    FirstIndexUnique(items, (a: string) => Lower(a) == Lower(s), k);
  }

  /** `available_listing_types`. */
  const ListingTypes: seq<string> := ["Sale", "Rent", "Share", "Sold", "NewHomes"]

  /** `listing_type(entry)`. */
  function ListingType(entry: Option<string>): (r: Result<string>)
    ensures entry.None? ==> r == Ok("")
    ensures entry.Some? && r.Ok? ==>
              r.value in ListingTypes && Lower(r.value) == Lower(entry.value)
    ensures entry.Some? ==>
              (r.Err? <==> forall i :: 0 <= i < |ListingTypes| ==>
                             Lower(ListingTypes[i]) != Lower(entry.value))
    ensures r.Err? ==>
              r.error == ValueError("listing type must be one of: " + Join(ListingTypes, ", "))
  {
    match entry
    case None => Ok("")
    case Some(text) =>
      match MatchIndex(text, ListingTypes)
      case None => Err(ValueError("listing type must be one of: " + Join(ListingTypes, ", ")))
      case Some(i) => Ok(ListingTypes[i])
  }

  /** The five listing types differ in more than case, so each, in any case,
      comes back in its listed spelling. */
  lemma ListingTypesCanonical(k: nat, s: string)
    requires k < |ListingTypes| && Lower(s) == Lower(ListingTypes[k])
    ensures ListingType(Some(s)) == Ok(ListingTypes[k])
  {
    assert CaseDistinct(ListingTypes) by {
      forall i, j | 0 <= i < j < |ListingTypes|
        ensures Lower(ListingTypes[i]) != Lower(ListingTypes[j])
      {
        assert Lower(ListingTypes[i])[0] != Lower(ListingTypes[j])[0]
            || Lower(ListingTypes[i])[1] != Lower(ListingTypes[j])[1];
      }
    }
    CanonicalSpelling(ListingTypes, k, s);
  }

  /** The `cities` tuple of `city`. */
  const Cities: seq<string> := ["Sydney", "Melbourne", "Brisbane", "Adelaide", "Canberra"]

  /** `city(string, default=…)`. */
  function City(s: Option<string>, default: Option<string>): (r: Result<Option<string>>)
    ensures s.None? ==> r == Ok(default)
    ensures s.Some? ==>
              (r.Ok? <==> exists i :: 0 <= i < |Cities| && Lower(Cities[i]) == Lower(s.value))
    ensures s.Some? && r.Ok? ==> r.value.Some? && r.value.value in Cities
  {
    CaseInsensitiveString(s, TupleOf(Cities), default)
  }

  /** Each of the five cities, in any case, is accepted and answered with
      its listed spelling. */
  lemma CitiesCanonical(k: nat, s: string, default: Option<string>)
    requires k < |Cities| && Lower(s) == Lower(Cities[k])
    ensures City(Some(s), default) == Ok(Some(Cities[k]))
  {
    assert CaseDistinct(Cities) by {
      forall i, j | 0 <= i < j < |Cities|
        ensures Lower(Cities[i]) != Lower(Cities[j])
      {
        assert Lower(Cities[i])[0] != Lower(Cities[j])[0];
      }
    }
    CanonicalSpelling(Cities, k, s);
  }

  /** The `entry` of `integer_range`: nothing, one integer, or a list. */
  datatype RangeArg = NoRange | Single(n: int) | Bounds(items: seq<int>)

  /** Python truthiness of the entry. */
  predicate Falsy(entry: RangeArg)
  {
    entry.NoRange? || entry == Single(0) || entry == Bounds([])
  }

  predicate Ascending(xs: seq<int>)
  {
    forall i, j :: 0 <= i < j < |xs| ==> xs[i] <= xs[j]
  }

  /** `sorted` of a list of at most two numbers. */
  function SortShort(xs: seq<int>): (r: seq<int>)
    requires |xs| <= 2
    ensures |r| == |xs| && Ascending(r) && multiset(r) == multiset(xs)
  {
    if |xs| == 2 && xs[1] < xs[0] then
      assert xs == [xs[0], xs[1]];
      [xs[1], xs[0]]
    else xs
  }

  /** `integer_range(entry, default_value)`: the (lower, upper) tuple. */
  function IntegerRange(entry: RangeArg, default: int): (r: Result<seq<int>>)
    ensures Falsy(entry) ==> r == Ok([default, default])
    ensures entry.Single? && entry.n != 0 ==> r == Ok([entry.n, entry.n])
    ensures r.Err? <==> entry.Bounds? && |entry.items| > 2
    ensures r.Err? ==> r.error == ValueError("only lower and upper range can be given, not a list")
    ensures r.Ok? && entry.Bounds? && entry.items != [] ==>
              |r.value| == |entry.items| && multiset(r.value) == multiset(entry.items)
    ensures r.Ok? ==> Ascending(r.value)
  {
    if Falsy(entry) then Ok([default, default])
    else match entry
      case Single(n) => Ok([n, n])
      case Bounds(items) =>
        if |items| > 2 then Err(ValueError("only lower and upper range can be given, not a list"))
        else Ok(SortShort(items))
      case NoRange => Ok([default, default])
  }

  /** Bounds given in either order give the same range. */
  lemma RangeOrderBlind(a: int, b: int, default: int)
    ensures IntegerRange(Bounds([a, b]), default) == IntegerRange(Bounds([b, a]), default)
    ensures IntegerRange(Bounds([a, b]), default).Ok?
  {
  }

  /** The `entries` of the list validators: nothing, one string, or a list
      of strings. */
  datatype EntriesArg = NoEntries | OneEntry(entry: string) | ManyEntries(entries: seq<string>)

  /** The entries in the table's spelling, or the error raised for the
      first entry the table does not hold. */
  function Validated(entries: seq<string>, available: seq<string>, miss: string -> Error)
    : (r: Result<seq<string>>)
    ensures r.Ok? <==> forall k :: 0 <= k < |entries| ==> MatchIndex(entries[k], available).Some?
    ensures r.Ok? ==>
              |r.value| == |entries|
              && forall k :: 0 <= k < |entries| ==>
                   r.value[k] in available && Lower(r.value[k]) == Lower(entries[k])
    decreases |entries|
  {
    if entries == [] then Ok([])
    else
      match MatchIndex(entries[0], available)
      case None => Err(miss(entries[0]))
      case Some(i) => Prepend([available[i]], Validated(entries[1..], available, miss))
  }

  /** `done + rest` when `rest` succeeded. */
  function Prepend(done: seq<string>, rest: Result<seq<string>>): Result<seq<string>>
  {
    match rest
    case Err(e) => Err(e)
    case Ok(tail) => Ok(done + tail)
  }

  /** The error raised for the first unrecognised entry. */
  lemma {:induction false} FirstMissRaised(entries: seq<string>, available: seq<string>,
                                           miss: string -> Error, k: nat)
    requires k < |entries| && MatchIndex(entries[k], available).None?
    requires forall j :: 0 <= j < k ==> MatchIndex(entries[j], available).Some?
    ensures Validated(entries, available, miss) == Err(miss(entries[k]))
    decreases k
  {
    if k > 0 {
      FirstMissRaised(entries[1..], available, miss, k - 1);
    }
  }

  /** One entry off the front of the remaining entries. */
  lemma ValidatedStep(entries: seq<string>, i: nat, available: seq<string>, miss: string -> Error)
    requires i < |entries|
    ensures Validated(entries[i..], available, miss)
         == match MatchIndex(entries[i], available)
            case None => Err(miss(entries[i]))
            case Some(k) => Prepend([available[k]], Validated(entries[i + 1..], available, miss))
  {
    assert entries[i..][0] == entries[i] && entries[i..][1..] == entries[i + 1..];
  }

  /** Prepending in two steps is prepending the concatenation. */
  lemma PrependTwice(a: seq<string>, b: seq<string>, rest: Result<seq<string>>)
    ensures Prepend(a, Prepend(b, rest)) == Prepend(a + b, rest)
  {
    if rest.Ok? {
      assert a + (b + rest.value) == (a + b) + rest.value;
    }
  }

  /** Prepending nothing changes nothing. */
  lemma PrependNothing(rest: Result<seq<string>>)
    ensures Prepend([], rest) == rest
  {
    if rest.Ok? {
      assert [] + rest.value == rest.value;
    }
  }

  /** The `for entry in entries` loop of `property_types` and
      `listing_attributes`. */
  method ValidateEntries(entries: seq<string>, available: seq<string>, miss: string -> Error)
    returns (r: Result<seq<string>>)
    ensures r == Validated(entries, available, miss)
  {
    var validated: seq<string> := [];
    var i := 0;
    assert entries[i..] == entries;
    PrependNothing(Validated(entries, available, miss));
    while i < |entries|
      invariant 0 <= i <= |entries|
      invariant Validated(entries, available, miss)
             == Prepend(validated, Validated(entries[i..], available, miss))
    {
      ValidatedStep(entries, i, available, miss);
      var index := MatchIndex(entries[i], available);
      if index.None? {
        return Err(miss(entries[i]));
      }
      PrependTwice(validated, [available[index.value]], Validated(entries[i + 1..], available, miss));
      validated := validated + [available[index.value]];
      i := i + 1;
    }
    assert entries[i..] == [];
    assert validated + [] == validated;
    r := Ok(validated);
  }

  /** `available_property_types`. */
  const PropertyTypeNames: seq<string> := [
    "AcreageSemiRural", "ApartmentUnitFlat", "BlockOfUnits", "CarSpace",
    "DevelopmentSite", "Duplex", "Farm", "NewHomeDesigns", "House",
    "NewHouseLand", "NewLand", "NewApartments", "Penthouse",
    "RetirementVillage", "Rural", "SemiDetached", "SpecialistFarm",
    "Studio", "Terrace", "Townhouse", "VacantLand", "Villa"]

  /** `available_listing_attributes`. */
  const ListingAttributeNames: seq<string> :=
    ["HasPhotos", "HasPrice", "NotUpForAuction", "NotUnderContract", "MarkedAsNew"]

  /** The error `list.index` raises when the looked-up value,
      `str(entry).lower()`, is missing. */
  function IndexMiss(entry: string): Error
  {
    ValueError(StrRepr(Lower(entry)) + " is not in list")
  }

  /** The message `property_types` means to raise for an unknown type. */
  function PropertyTypeMiss(entry: string): Error
  {
    ValueError("Unrecognised property type '" + entry + "'. Available types: "
               + Join(PropertyTypeNames, ", "))
  }

  /** The message `listing_attributes` means to raise for an unknown attribute. */
  function ListingAttributeMiss(entry: string): Error
  {
    ValueError("Unrecognised listing attribute " + entry + ". Available attributes: "
               + Join(ListingAttributeNames, ", "))
  }

  /** `property_types(entries)` as written: any input but `None` reaches the
      name `unicode`, which Python 3 does not define. */
  function PropertyTypes(entries: EntriesArg): (r: Result<seq<string>>)
    ensures entries.NoEntries? <==> r == Ok([""])
    ensures !entries.NoEntries? ==> r == Err(NameError("unicode"))
  {
    if entries.NoEntries? then Ok([""]) else Err(NameError("unicode"))
  }

  /** `listing_attributes(entries)` as written. */
  function ListingAttributes(entries: EntriesArg): (r: Result<seq<string>>)
    ensures entries.NoEntries? <==> r == Ok([""])
    ensures !entries.NoEntries? ==> r == Err(NameError("unicode"))
  {
    if entries.NoEntries? then Ok([""]) else Err(NameError("unicode"))
  }

  /** `advertiser_ids(entries)` as written. */
  function AdvertiserIds(entries: EntriesArg): (r: Result<seq<string>>)
    ensures entries.NoEntries? <==> r == Ok([""])
    ensures !entries.NoEntries? ==> r == Err(NameError("unicode"))
  {
    if entries.NoEntries? then Ok([""]) else Err(NameError("unicode"))
  }

  /** The entries as a list: one string becomes a one-item list. */
  function AsList(entries: EntriesArg): seq<string>
    requires !entries.NoEntries?
  {
    if entries.OneEntry? then [entries.entry] else entries.entries
  }

  /** `property_types` as evidently intended: a string is a one-item list,
      and an unknown type raises the function's own message. */
  method PropertyTypesIntended(entries: EntriesArg) returns (r: Result<seq<string>>)
    ensures entries.NoEntries? ==> r == Ok([""])
    ensures !entries.NoEntries? ==>
              r == Validated(AsList(entries), PropertyTypeNames, PropertyTypeMiss)
  {
    if entries.NoEntries? {
      return Ok([""]);
    }
    r := ValidateEntries(AsList(entries), PropertyTypeNames, PropertyTypeMiss);
  }

  /** `listing_attributes` as evidently intended. */
  method ListingAttributesIntended(entries: EntriesArg) returns (r: Result<seq<string>>)
    ensures entries.NoEntries? ==> r == Ok([""])
    ensures !entries.NoEntries? ==>
              r == Validated(AsList(entries), ListingAttributeNames, ListingAttributeMiss)
  {
    if entries.NoEntries? {
      return Ok([""]);
    }
    r := ValidateEntries(AsList(entries), ListingAttributeNames, ListingAttributeMiss);
  }

  /** `advertiser_ids` as evidently intended: the identifiers as a list. */
  function AdvertiserIdsIntended(entries: EntriesArg): (r: seq<string>)
    ensures entries.NoEntries? ==> r == [""]
    ensures entries.OneEntry? ==> r == [entries.entry]
    ensures entries.ManyEntries? ==> r == entries.entries
  {
    if entries.NoEntries? then [""] else AsList(entries)
  }

  /** A single recognised entry becomes the one-item list of its listed
      spelling. */
  lemma OneEntryValidated(s: string, available: seq<string>, miss: string -> Error, k: nat)
    requires MatchIndex(s, available) == Some(k)
    ensures Validated([s], available, miss) == Ok([available[k]])
  {
    assert [s][0] == s && [s][1..] == [];
    assert Validated([], available, miss) == Ok([]);
    assert [available[k]] + [] == [available[k]];
  }

  /** A single property type, given as a string, raises `NameError` as
      written; as intended it is the one-item list of its listed spelling. */
  lemma HouseAsWrittenAndIntended()
    ensures PropertyTypes(OneEntry("house")) == Err(NameError("unicode"))
    ensures Validated(AsList(OneEntry("house")), PropertyTypeNames, PropertyTypeMiss)
         == Ok(["House"])
  {
    var names := PropertyTypeNames;
    assert MatchIndex("house", names) == Some(8) by {
      assert names[8] == "House";
      forall j | 0 <= j < 8
        ensures Lower(names[j]) != Lower("house")
      {
        assert |names[j]| != 5;
      }
      CanonicalPrefixMatch(names, 8, "house");
    }
    OneEntryValidated("house", names, PropertyTypeMiss, 8);
  }

  /** A match at `k` when no earlier name has the same lower-case form. */
  lemma CanonicalPrefixMatch(items: seq<string>, k: nat, s: string)
    requires k < |items| && Lower(items[k]) == Lower(s)
    requires forall j :: 0 <= j < k ==> Lower(items[j]) != Lower(s)
    ensures MatchIndex(s, items) == Some(k)
  {
    FirstIndexUnique(items, (a: string) => Lower(a) == Lower(s), k);
  }

  /** The handler catches `IndexError`, so an unknown entry escapes with
      the error of `list.index`, naming the lower-cased entry, instead of
      the function's own message. */
  lemma UnknownEntryEscapes(entry: string, available: seq<string>)
    requires MatchIndex(entry, available).None?
    ensures Validated([entry], available, IndexMiss)
         == Err(ValueError("'" + Lower(entry) + "' is not in list"))
  {
    assert "'" + " is not in list" == "' is not in list";
    assert StrRepr(Lower(entry)) + " is not in list" == "'" + Lower(entry) + "' is not in list";
  }

  /** As intended, the first unknown entry raises the function's own message. */
  lemma IntendedMessageRaised(entries: seq<string>, k: nat)
    requires k < |entries| && MatchIndex(entries[k], PropertyTypeNames).None?
    requires forall j :: 0 <= j < k ==> MatchIndex(entries[j], PropertyTypeNames).Some?
    ensures Validated(entries, PropertyTypeNames, PropertyTypeMiss) == Err(PropertyTypeMiss(entries[k]))
  {
    FirstMissRaised(entries, PropertyTypeNames, PropertyTypeMiss, k);
  }
}
