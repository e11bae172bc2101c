/**
 * The values the housing search works on: listings ("homes") with their
 * units, and the filter tree the search panel edits.
 *
 * A filter object is a tree of six top-level branches. Its checkbox groups
 * are maps from option name to flag; a key that is missing from a group
 * reads as JavaScript `undefined`, which the search treats differently
 * depending on the test (`!== false` counts it as selected, `=== true` and
 * truthiness do not).
 */
module Listings {
  import opened Options
  import opened JsNumbers

  /** One unit of a listing; the three nullable numbers are `null` when unknown. */
  datatype Unit = Unit(
    bedrooms: int,
    price: Option<int>,
    amiQualification: Option<int>,
    incomeQualification: Option<int>)

  /**
   * A listing. `offer` is "rent" or "sale", `dwellingType` is the listing's
   * `type` ("apt", ...). A listing in Boston has a neighbourhood and a `null`
   * cardinal direction; one beyond Boston has a cardinal direction.
   */
  datatype Home = Home(
    id: string,
    title: string,
    offer: string,
    dwellingType: string,
    city: Option<string>,
    neighborhood: Option<string>,
    cardinalDirection: Option<string>,
    incomeRestricted: bool,
    units: seq<Unit>)

  /** A checkbox group: option name to flag. */
  type Flags = map<string, bool>

  datatype Location = Location(city: Flags, neighborhood: Flags, cardinalDirection: Flags)

  /** A pair of slider bounds; the UI may leave them in either order. */
  datatype Bounds = Bounds(lowerBound: JsNumber, upperBound: JsNumber)

  datatype Ceiling = Ceiling(upperBound: JsNumber)

  datatype Filters = Filters(
    offer: Flags,
    location: Location,
    bedrooms: Flags,
    amiQualification: Bounds,
    incomeQualification: Ceiling,
    rentalPrice: Bounds)

  /** The names of the six top-level branches, in declaration order. */
  const BranchNames: seq<string> :=
    ["offer", "location", "bedrooms", "amiQualification", "incomeQualification", "rentalPrice"]

  /** The top of the rental price slider; a price bound at this value is open-ended. */
  const RentalPriceMaximum: int := 3000

  const DefaultFilters: Filters := Filters(
    map["rent" := false, "sale" := false],
    Location(
      map["boston" := false, "beyondBoston" := false],
      map[],
      map["west" := false, "north" := false, "south" := false]),
    map["0" := false, "1" := false, "2" := false, "3+" := false],
    Bounds(Int(0), Int(200)),
    Ceiling(Null),
    Bounds(Int(0), Int(RentalPriceMaximum)))

  /** `group[key] !== false`: a missing key counts as selected. */
  predicate NotFalse(group: Flags, key: string) {
    key !in group || group[key]
  }

  /** `group[key] === true`, and equally the truthiness of `group[key]`. */
  predicate IsTrue(group: Flags, key: string) {
    key in group && group[key]
  }

  /** Whether a group has no option set to true. */
  predicate NoneSelected(group: Flags, keys: seq<string>) {
    forall i :: 0 <= i < |keys| ==> !IsTrue(group, keys[i])
  }

  /** The key a nullable neighbourhood name is looked up under (`obj[null]` reads "null"). */
  function PropertyKey(name: Option<string>): (k: string)
    ensures name.Some? ==> k == name.value
    ensures name.None? ==> k == "null"
  {
    if name.None? then "null" else name.value
  }

  /** `Object.keys(group).forEach(k => group[k] = value)`: every option set to `value`. */
  method SetEveryKey(group: Flags, value: bool) returns (r: Flags)
    ensures r.Keys == group.Keys
    ensures forall k :: k in r ==> r[k] == value
  {
    r := group;
    var keys := group.Keys;
    while keys != {}
      invariant keys <= group.Keys && r.Keys == group.Keys
      invariant forall k :: k in r ==> r[k] == (if k in keys then group[k] else value)
      decreases keys
    {
      var k :| k in keys;
      r := r[k := value];
      keys := keys - {k};
    }
  }
}
