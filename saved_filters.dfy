/**
 * The filter object's life around a page load: the persisted filters are
 * sanitised, the AMI recommendation from the estimator may become the AMI
 * lower bound, the result is merged over the defaults; after listings are
 * fetched, every counted neighbourhood and cardinal direction gets a flag;
 * and "clear filters" builds a fresh default object that keeps the
 * neighbourhood names.
 *
 * Values read from and written to browser storage are parameters and
 * results here; reading and writing the storage itself is not modelled.
 */
module SavedFilters {
  import opened Options
  import opened JsNumbers
  import opened Listings
  import Matching
  import AmiEstimator

  /** A top-level branch of a parsed JSON object: absent, `null`, or a value. */
  datatype Slot<T> = Missing | JsonNull | Present(value: T)

  /**
   * A persisted filter object after JSON parsing: each of the six top-level
   * branches, and the names of any other top-level keys it carries.
   */
  datatype Saved = Saved(
    offer: Slot<Flags>,
    location: Slot<Location>,
    bedrooms: Slot<Flags>,
    amiQualification: Slot<Bounds>,
    incomeQualification: Slot<Ceiling>,
    rentalPrice: Slot<Bounds>,
    otherKeys: set<string>)

  /** What the stored "filters" item held: nothing (or the empty string), a JSON value
      that is not a plain object, or a plain object. */
  datatype Stored = Absent | NonObject | PlainObject(saved: Saved)

  datatype LoadResult = Loaded(saved: Saved) | LoadTypeError

  const EmptySaved: Saved := Saved(Missing, Missing, Missing, Missing, Missing, Missing, {})

  // ---------------------------------------------------------------------------
  // The persisted form
  // ---------------------------------------------------------------------------

  /** A number slot as `JSON.stringify` writes it: `NaN` becomes `null`. */
  function JsonNumber(n: JsNumber): (r: JsNumber)
    ensures !r.NaN?
    ensures !n.NaN? ==> r == n
    ensures n.NaN? ==> r == Null
  {
    if n.NaN? then Null else n
  }

  function JsonBounds(b: Bounds): Bounds {
    Bounds(JsonNumber(b.lowerBound), JsonNumber(b.upperBound))
  }

  /** The filters as they read back after `JSON.stringify` and `JSON.parse`:
      every `NaN` number slot is `null`, the rest is as it was. */
  function JsonFilters(f: Filters): (r: Filters)
    ensures r == f.(amiQualification := r.amiQualification, incomeQualification := r.incomeQualification,
                    rentalPrice := r.rentalPrice)
    ensures NoNaN(r)
  {
    f.(amiQualification := JsonBounds(f.amiQualification),
       incomeQualification := Ceiling(JsonNumber(f.incomeQualification.upperBound)),
       rentalPrice := JsonBounds(f.rentalPrice))
  }

  /** No number slot of the filters is `NaN`. */
  predicate NoNaN(f: Filters) {
    && !f.amiQualification.lowerBound.NaN? && !f.amiQualification.upperBound.NaN?
    && !f.incomeQualification.upperBound.NaN?
    && !f.rentalPrice.lowerBound.NaN? && !f.rentalPrice.upperBound.NaN?
  }

  /** The stored "filters" item, parsed back: every branch present, in its JSON form. */
  function Persisted(f: Filters): Saved {
    var j := JsonFilters(f);
    Saved(Present(j.offer), Present(j.location), Present(j.bedrooms), Present(j.amiQualification),
      Present(j.incomeQualification), Present(j.rentalPrice), {})
  }

  /** Filters without a `NaN` slot read back as themselves. */
  lemma JsonFiltersOfNaNFree(f: Filters)
    requires NoNaN(f)
    ensures JsonFilters(f) == f
  {
  }

  // ---------------------------------------------------------------------------
  // Sanitisation
  // ---------------------------------------------------------------------------

  /** The legacy bedroom options: "3" becomes "3+", and "4+" is removed. */
  function MigrateBedrooms(b: Flags): (r: Flags)
    ensures "3" !in r && "4+" !in r
    ensures "3" in b ==> "3+" in r && r["3+"] == b["3"]
    ensures "3" !in b ==> ("3+" in r <==> "3+" in b) && ("3+" in b ==> r["3+"] == b["3+"])
    ensures forall k :: k in b && k != "3" && k != "3+" && k != "4+" ==> k in r && r[k] == b[k]
    ensures forall k :: k in r ==> k in b || k == "3+"
  {
    var moved := if "3" in b then b["3+" := b["3"]] - {"3"} else b;
    moved - {"4+"}
  }

  /** Current bedroom options are left as they are. */
  lemma MigrateBedroomsKeepsCurrent(b: Flags)
    requires "3" !in b && "4+" !in b
    ensures MigrateBedrooms(b) == b
  {
  }

  /** The sanitised filters: no unknown top-level key, legacy bedroom options migrated. */
  function Sanitized(s: Saved): Saved
    requires s.bedrooms.Present?
  {
    s.(otherKeys := {}, bedrooms := Present(MigrateBedrooms(s.bedrooms.value)))
  }

  /**
   * The sanitisation of the stored filters at load time: anything but a plain
   * object reads as `{}`; in a plain object, top-level keys that are not
   * branches of the defaults are deleted, the neighbourhoods are re-inserted
   * in sorted key order and the legacy bedroom options migrated. A plain object
   * whose `location` or `bedrooms` is missing or `null` throws a TypeError.
   */
  method Sanitize(stored: Stored) returns (r: LoadResult)
    ensures !stored.PlainObject? ==> r == Loaded(EmptySaved)
    ensures stored.PlainObject? && (!stored.saved.location.Present? || !stored.saved.bedrooms.Present?) ==>
      r == LoadTypeError
    ensures stored.PlainObject? && stored.saved.location.Present? && stored.saved.bedrooms.Present? ==>
      r == Loaded(Sanitized(stored.saved))
  {
    if !stored.PlainObject? {
      return Loaded(EmptySaved);
    }
    var saved := stored.saved;
    var errant := saved.otherKeys;
    while errant != {}
      invariant saved == stored.saved.(otherKeys := errant)
      decreases errant
    {
      var key :| key in errant;
      errant := errant - {key};
      saved := saved.(otherKeys := errant);
    }

    if !saved.location.Present? {
      return LoadTypeError;
    }
    var savedNeighborhoods := saved.location.value.neighborhood;
    var neighborhoods: Flags := map[];
    var pending := savedNeighborhoods.Keys;
    while pending != {}
      invariant pending <= savedNeighborhoods.Keys
      invariant neighborhoods.Keys == savedNeighborhoods.Keys - pending
      invariant forall nb :: nb in neighborhoods ==> neighborhoods[nb] == savedNeighborhoods[nb]
      decreases pending
    {
      var nb :| nb in pending;
      neighborhoods := neighborhoods[nb := savedNeighborhoods[nb]];
      pending := pending - {nb};
    }
    assert neighborhoods == savedNeighborhoods;
    saved := saved.(location := Present(saved.location.value.(neighborhood := neighborhoods)));

    if !saved.bedrooms.Present? {
      return LoadTypeError;
    }
    var bedrooms := saved.bedrooms.value;
    if "3" in bedrooms {
      bedrooms := bedrooms["3+" := bedrooms["3"]];
      bedrooms := bedrooms - {"3"};
    }
    bedrooms := bedrooms - {"4+"};
    return Loaded(saved.(bedrooms := Present(bedrooms)));
  }

  // ---------------------------------------------------------------------------
  // The AMI recommendation as lower bound
  // ---------------------------------------------------------------------------

  /** `String(x)` of an estimation, as the estimator stores its recommendation. */
  function EstimationText(e: AmiEstimator.Estimation): string {
    if e.Percent? then IntToString(e.value) else "NaN"
  }

  /**
   * When the stored flag "useAmiRecommendationAsLowerBound" is the text "true",
   * the AMI lower bound becomes `parseInt` of the stored recommendation (a
   * missing one reads "null"), in the saved AMI branch or, when that is
   * missing or `null`, in a new one whose upper bound is `null`; the flag is
   * then stored as "false". Any other flag leaves everything as it is.
   * Returns the filters and the flag's stored value afterwards.
   */
  function ApplyRecommendation(saved: Saved, useRecommendation: Option<string>, recommendation: Option<string>)
    : (r: (Saved, Option<string>))
    ensures useRecommendation != Some("true") ==> r == (saved, useRecommendation)
    ensures useRecommendation == Some("true") ==>
      && r.1 == Some("false")
      && r.0 == saved.(amiQualification := r.0.amiQualification)
      && r.0.amiQualification.Present?
      && r.0.amiQualification.value.lowerBound == ParseInt(if recommendation.Some? then recommendation.value else "null")
      && r.0.amiQualification.value.upperBound ==
           (if saved.amiQualification.Present? then saved.amiQualification.value.upperBound else Null)
  {
    if useRecommendation == Some("true") then
      var ami := if saved.amiQualification.Present? then saved.amiQualification.value else Bounds(Int(0), Null);
      var text := if recommendation.Some? then recommendation.value else "null";
      (saved.(amiQualification := Present(ami.(lowerBound := ParseInt(text)))), Some("false"))
    else (saved, useRecommendation)
  }

  /** The flag is one-shot: a second load with the flag it leaves behind changes nothing. */
  lemma RecommendationAppliedOnce(saved: Saved, useRecommendation: Option<string>, recommendation: Option<string>)
    ensures
      var (once, flag) := ApplyRecommendation(saved, useRecommendation, recommendation);
      ApplyRecommendation(once, flag, recommendation) == (once, flag)
  {
  }

  /**
   * The estimator's stored recommendation becomes the AMI lower bound unchanged:
   * its percentage, or `NaN`. A recommendation the estimator shows (an
   * estimation of at most 200%) gives a lower bound within [0, 200].
   */
  lemma StoredRecommendationLoads(saved: Saved, e: AmiEstimator.Estimation)
    ensures
      var rec := AmiEstimator.RecommendAmi(e);
      var loaded := ApplyRecommendation(saved, Some("true"), Some(EstimationText(rec))).0;
      loaded.amiQualification.Present?
      && loaded.amiQualification.value.lowerBound == (if rec.Percent? then Int(rec.value) else NaN)
    ensures e.Percent? && !AmiEstimator.IsAboveUpperBound(e) ==>
      var rec := AmiEstimator.RecommendAmi(e);
      var lower := ApplyRecommendation(saved, Some("true"), Some(EstimationText(rec))).0.amiQualification.value.lowerBound;
      lower.Int? && 0 <= lower.value <= 200
  {
    var rec := AmiEstimator.RecommendAmi(e);
    if rec.Percent? {
      ParseIntOfIntToString(rec.value);
    } else {
      ParseIntOfNaN();
    }
    if e.Percent? && !AmiEstimator.IsAboveUpperBound(e) {
      AmiEstimator.RecommendationWithinShownRange(e);
    }
  }

  /** With no recommendation stored, `parseInt(null, 10)` makes the lower bound `NaN`. */
  lemma MissingRecommendationLoadsNaN(saved: Saved)
    ensures ApplyRecommendation(saved, Some("true"), None).0.amiQualification.value.lowerBound == NaN
  {
    var text := "null";
    assert text[0] == 'n';
    ParseIntOfLetter(text);
  }

  // ---------------------------------------------------------------------------
  // Merging over the defaults
  // ---------------------------------------------------------------------------

  function Pick<T>(saved: Slot<T>, default: T): T {
    if saved.Present? then saved.value else default
  }

  /** A saved branch that is `null`. */
  predicate HasNullBranch(saved: Saved) {
    || saved.offer.JsonNull? || saved.location.JsonNull? || saved.bedrooms.JsonNull?
    || saved.amiQualification.JsonNull? || saved.incomeQualification.JsonNull? || saved.rentalPrice.JsonNull?
  }

  /** The merged branch is the saved one when there is one, the default one when it is missing. */
  predicate Takes<T(==)>(saved: Slot<T>, merged: T, default: T) {
    (saved.Present? ==> merged == saved.value) && (saved.Missing? ==> merged == default)
  }

  /**
   * `{ ...defaultFilters, ...savedFilters }`: each branch the saved filters have
   * replaces the default one whole, and the others are the defaults. A saved
   * `null` branch is copied over its default too, and the result is then no
   * filter object (`None`).
   */
  function MergeDefaults(saved: Saved): (r: Option<Filters>)
    requires saved.otherKeys == {}
    ensures r.None? <==> HasNullBranch(saved)
    ensures r.Some? ==>
      && Takes(saved.offer, r.value.offer, DefaultFilters.offer)
      && Takes(saved.location, r.value.location, DefaultFilters.location)
      && Takes(saved.bedrooms, r.value.bedrooms, DefaultFilters.bedrooms)
      && Takes(saved.amiQualification, r.value.amiQualification, DefaultFilters.amiQualification)
      && Takes(saved.incomeQualification, r.value.incomeQualification, DefaultFilters.incomeQualification)
      && Takes(saved.rentalPrice, r.value.rentalPrice, DefaultFilters.rentalPrice)
  {
    if HasNullBranch(saved) then None
    else
      Some(Filters(
        Pick(saved.offer, DefaultFilters.offer),
        Pick(saved.location, DefaultFilters.location),
        Pick(saved.bedrooms, DefaultFilters.bedrooms),
        Pick(saved.amiQualification, DefaultFilters.amiQualification),
        Pick(saved.incomeQualification, DefaultFilters.incomeQualification),
        Pick(saved.rentalPrice, DefaultFilters.rentalPrice)))
  }

  /** With nothing saved, the filters are the defaults. */
  lemma MergeOfNothing()
    ensures MergeDefaults(EmptySaved) == Some(DefaultFilters)
  {
  }

  /** A saved branch is taken whole: an empty saved offer group stays empty, the default
      options are not filled in. */
  lemma MergeReplacesWholeBranch(saved: Saved)
    requires saved.otherKeys == {} && saved.offer == Present(map[]) && !HasNullBranch(saved)
    ensures MergeDefaults(saved).Some? && MergeDefaults(saved).value.offer == map[]
    ensures "rent" !in MergeDefaults(saved).value.offer && "rent" in DefaultFilters.offer
  {
  }

  /**
   * Filters persisted without legacy bedroom options load back in their JSON
   * form (a `NaN` bound as `null`), whatever other top-level keys were stored
   * beside them.
   */
  lemma ReloadRoundTrip(f: Filters, otherKeys: set<string>)
    requires "3" !in f.bedrooms && "4+" !in f.bedrooms
    ensures MergeDefaults(Sanitized(Persisted(f).(otherKeys := otherKeys))) == Some(JsonFilters(f))
  {
    MigrateBedroomsKeepsCurrent(f.bedrooms);
  }

  /** Filters with no `NaN` slot load back as themselves. */
  lemma ReloadOfNaNFree(f: Filters, otherKeys: set<string>)
    requires "3" !in f.bedrooms && "4+" !in f.bedrooms && NoNaN(f)
    ensures MergeDefaults(Sanitized(Persisted(f).(otherKeys := otherKeys))) == Some(f)
  {
    ReloadRoundTrip(f, otherKeys);
    JsonFiltersOfNaNFree(f);
  }

  /** A second reload changes nothing: the JSON form is its own JSON form. */
  lemma ReloadTwice(f: Filters, otherKeys: set<string>)
    requires "3" !in f.bedrooms && "4+" !in f.bedrooms
    ensures
      var once := JsonFilters(f);
      MergeDefaults(Sanitized(Persisted(once).(otherKeys := otherKeys))) == Some(once)
  {
    ReloadOfNaNFree(JsonFilters(f), otherKeys);
  }

  /**
   * What the reload does to a `NaN` AMI lower bound (as a stored "NaN"
   * recommendation or a non-numeric slider text leaves it): before, no
   * non-zero AMI value passes; after, it reads back as `null`, which compares
   * as 0, so every AMI value from 1 up to the upper bound passes.
   */
  lemma NaNLowerBoundReloadsAsNull(f: Filters, ami: int)
    requires f.amiQualification.lowerBound.NaN? && f.amiQualification.upperBound.Int?
    requires 0 < ami <= f.amiQualification.upperBound.value
    ensures JsonFilters(f).amiQualification.lowerBound == Null
    ensures !Matching.AmiValueMatches(f.amiQualification, Some(ami))
    ensures Matching.AmiValueMatches(JsonFilters(f).amiQualification, Some(ami))
  {
    var b := JsonFilters(f).amiQualification;
    assert b == Bounds(Null, f.amiQualification.upperBound);
    assert NullIfFalsy(Some(ami)) == Some(ami);
    assert Le(b.lowerBound, b.upperBound);
    assert Matching.InInterval(ami, b);
  }

  // ---------------------------------------------------------------------------
  // After the listings are fetched
  // ---------------------------------------------------------------------------

  /** `keys.forEach(k => group[k] = (group[k] || false))`: every key gets a flag, existing flags stay. */
  method AddMissingAsFalse(group: Flags, keys: set<string>) returns (r: Flags)
    ensures r.Keys == group.Keys + keys
    ensures forall k :: k in group ==> r[k] == group[k]
    ensures forall k :: k in keys && k !in group ==> !r[k]
  {
    r := group;
    var pending := keys;
    while pending != {}
      invariant pending <= keys
      invariant r.Keys == group.Keys + (keys - pending)
      invariant forall k :: k in group ==> r[k] == group[k]
      invariant forall k :: k in r && k !in group ==> !r[k]
      decreases pending
    {
      var k :| k in pending;
      r := r[k := if k in r then r[k] else false];
      pending := pending - {k};
    }
  }

  /** The merge of the counted neighbourhood and direction names into the filters. */
  method MergeCountKeys(f: Filters, neighborhoods: set<string>, directions: set<string>) returns (r: Filters)
    ensures r.location.neighborhood.Keys == f.location.neighborhood.Keys + neighborhoods
    ensures r.location.cardinalDirection.Keys == f.location.cardinalDirection.Keys + directions
    ensures forall k :: k in f.location.neighborhood ==> r.location.neighborhood[k] == f.location.neighborhood[k]
    ensures forall k :: k in f.location.cardinalDirection ==>
      r.location.cardinalDirection[k] == f.location.cardinalDirection[k]
    ensures forall k :: k in neighborhoods && k !in f.location.neighborhood ==> !r.location.neighborhood[k]
    ensures forall k :: k in directions && k !in f.location.cardinalDirection ==> !r.location.cardinalDirection[k]
    ensures r == f.(location := r.location) && r.location.city == f.location.city
  {
    var nb := AddMissingAsFalse(f.location.neighborhood, neighborhoods);
    var cd := AddMissingAsFalse(f.location.cardinalDirection, directions);
    r := f.(location := f.location.(neighborhood := nb, cardinalDirection := cd));
  }

  // ---------------------------------------------------------------------------
  // Clearing the filters
  // ---------------------------------------------------------------------------

  /** `clearFilters`' fresh filter object: the defaults, with every current neighbourhood unticked. */
  method ResetFilters(f: Filters) returns (r: Filters)
    ensures r.location.neighborhood.Keys == f.location.neighborhood.Keys
    ensures forall k :: k in r.location.neighborhood ==> !r.location.neighborhood[k]
    ensures r.(location := r.location.(neighborhood := map[])) == DefaultFilters
  {
    var resetNeighborhoods := SetEveryKey(f.location.neighborhood, false);
    r := Filters(
      map["rent" := false, "sale" := false],
      Location(
        map["boston" := false, "beyondBoston" := false],
        resetNeighborhoods,
        map["west" := false, "north" := false, "south" := false]),
      map["0" := false, "1" := false, "2" := false, "3+" := false],
      Bounds(Int(0), Int(200)),
      Ceiling(Null),
      Bounds(Int(0), Int(RentalPriceMaximum)));
  }

  /** A filter object shaped like the cleared one: the defaults with every neighbourhood unticked. */
  predicate IsCleared(g: Filters) {
    && g.(location := g.location.(neighborhood := map[])) == DefaultFilters
    && forall k :: k in g.location.neighborhood ==> !g.location.neighborhood[k]
  }

  /** A listing the cleared filters cannot drop: it has a unit, and every unit has a
      non-negative (or no) price and an AMI percentage within [0, 200] (or none). */
  predicate Ordinary(h: Home) {
    && |h.units| > 0
    && forall u :: u in h.units ==>
      && (u.price.None? || u.price.value >= 0)
      && (u.amiQualification.None? || 0 <= u.amiQualification.value <= 200)
  }

  lemma ClearedPassesUnit(g: Filters, h: Home, u: Unit)
    requires IsCleared(g) && u in h.units && Ordinary(h)
    ensures Matching.UnitPasses(g, h, u, true)
  {
    assert g.rentalPrice == Bounds(Int(0), Int(RentalPriceMaximum));
    assert g.amiQualification == Bounds(Int(0), Int(200));
    assert g.incomeQualification == Ceiling(Null);
    assert g.bedrooms == DefaultFilters.bedrooms;
  }

  lemma ClearedPassesListing(g: Filters, h: Home)
    requires IsCleared(g) && Ordinary(h)
    ensures Matching.Kept(g, h, true) && Matching.Narrowed(g, h, true) == h
  {
    forall u | u in h.units
      ensures Matching.UnitPasses(g, h, u, true)
    {
      ClearedPassesUnit(g, h, u);
    }
    Matching.KeptUnitsOfPassingUnits(g, h, true, h.units);
    assert g.offer == DefaultFilters.offer && g.location.city == DefaultFilters.location.city;
    assert g.bedrooms == DefaultFilters.bedrooms;
    assert Matching.UnitMatchesAmi(g.amiQualification, h.units[0]);
  }

  /** With the filters cleared, the search shows every ordinary listing, whole. */
  lemma {:induction false} ClearedFiltersShowEverything(g: Filters, homes: seq<Home>)
    requires IsCleared(g)
    requires forall h :: h in homes ==> Ordinary(h)
    ensures Matching.FilterHomes(homes, g, true) == homes
    decreases |homes|
  {
    if |homes| > 0 {
      var first := homes[0];
      var rest := homes[1..];
      assert first in homes;
      ClearedPassesListing(g, first);
      ClearedFiltersShowEverything(g, rest);
      assert Matching.FilterHomes(homes, g, true) == [first] + Matching.FilterHomes(rest, g, true);
      assert homes == [first] + rest;
    }
  }
}
