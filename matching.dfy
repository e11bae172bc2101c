/**
 * The search: which listings, and which of their units, a filter object
 * selects. A listing is first judged as a whole (offer, broad and narrow
 * location, bedrooms, AMI qualification); each surviving listing then keeps
 * only the units that pass the per-unit tests (rental price, bedrooms, AMI,
 * income), and a listing left without units is dropped.
 *
 * `relax` is the search's `matchOnNoneSelected` switch: with it, a checkbox
 * group in which nothing is selected matches everything.
 */
module Matching {
  import opened Options
  import opened JsNumbers
  import opened StringOrder
  import opened Listings

  const OfferKeys: seq<string> := ["rent", "sale"]
  const CityKeys: seq<string> := ["boston", "beyondBoston"]
  const BedroomKeys: seq<string> := ["0", "1", "2", "3+"]

  // ---------------------------------------------------------------------------
  // Listing-level tests
  // ---------------------------------------------------------------------------

  predicate MatchesOffer(f: Filters, h: Home) {
    || (NotFalse(f.offer, "rent") && h.offer == "rent")
    || (NotFalse(f.offer, "sale") && h.offer == "sale")
  }

  predicate MatchesBroadLocation(f: Filters, h: Home) {
    || (NotFalse(f.location.city, "boston") && h.cardinalDirection.None?)
    || (NotFalse(f.location.city, "beyondBoston") && h.cardinalDirection.Some?)
  }

  predicate MatchesNarrowLocation(f: Filters, h: Home) {
    if h.cardinalDirection.None? then IsTrue(f.location.neighborhood, PropertyKey(h.neighborhood))
    else IsTrue(f.location.cardinalDirection, h.cardinalDirection.value)
  }

  /** The bedroom counts of a listing's units, in unit order. */
  function BedroomSizes(units: seq<Unit>): (r: seq<int>)
    ensures |r| == |units|
    ensures forall i :: 0 <= i < |units| ==> r[i] == units[i].bedrooms
  {
    seq(|units|, i requires 0 <= i < |units| => units[i].bedrooms)
  }

  /** The "3+" listing test reads the last of the bedroom counts after the default sort. */
  predicate MatchesBedrooms(f: Filters, h: Home) {
    var sizes := BedroomSizes(h.units);
    || (IsTrue(f.bedrooms, "0") && 0 in sizes)
    || (IsTrue(f.bedrooms, "1") && 1 in sizes)
    || (IsTrue(f.bedrooms, "2") && 2 in sizes)
    || (IsTrue(f.bedrooms, "3+") && |sizes| > 0 && SortedLast(sizes) >= 3)
  }

  /** The AMI interval test for a present, non-zero AMI percentage. The bounds are
      read in whichever order they stand; with a `NaN` bound neither order holds. */
  predicate InInterval(ami: int, b: Bounds) {
    if Le(b.lowerBound, b.upperBound) then Ge(Int(ami), b.lowerBound) && Le(Int(ami), b.upperBound)
    else if Gt(b.lowerBound, b.upperBound) then Ge(Int(ami), b.upperBound) && Le(Int(ami), b.lowerBound)
    else false
  }

  /** An AMI value of a unit passes when it is `null` or 0 (`x || null`) or lies in the interval. */
  predicate AmiValueMatches(b: Bounds, ami: Option<int>) {
    var v := NullIfFalsy(ami);
    v.None? || InInterval(v.value, b)
  }

  predicate UnitMatchesAmi(b: Bounds, u: Unit) {
    AmiValueMatches(b, u.amiQualification)
  }

  /** A listing that is not income-restricted always qualifies; a restricted one
      qualifies when one of its units does. */
  predicate ListingMatchesAmi(b: Bounds, h: Home) {
    !h.incomeRestricted || exists i :: 0 <= i < |h.units| && UnitMatchesAmi(b, h.units[i])
  }

  /** The whole listing-level test. */
  predicate ListingPasses(f: Filters, h: Home, relax: bool) {
    && (MatchesOffer(f, h) || (relax && NoneSelected(f.offer, OfferKeys)))
    && ((MatchesBroadLocation(f, h) && MatchesNarrowLocation(f, h))
        || (relax && NoneSelected(f.location.city, CityKeys)))
    && (MatchesBedrooms(f, h) || (relax && NoneSelected(f.bedrooms, BedroomKeys)))
    && ListingMatchesAmi(f.amiQualification, h)
  }

  // ---------------------------------------------------------------------------
  // The listing-level AMI loop
  // ---------------------------------------------------------------------------

  /** The AMI values of a listing's units, in unit order. */
  function AmiValues(units: seq<Unit>): (r: seq<Option<int>>)
    ensures |r| == |units|
    ensures forall i :: 0 <= i < |units| ==> r[i] == units[i].amiQualification
  {
    seq(|units|, i requires 0 <= i < |units| => units[i].amiQualification)
  }

  /** `Array.from(new Set(s))`: the distinct values of `s`, each at its first occurrence. */
  function Dedup(s: seq<Option<int>>): (r: seq<Option<int>>)
    ensures forall x :: x in r <==> x in s
    ensures forall i, j :: 0 <= i < j < |r| ==> r[i] != r[j]
  {
    if |s| == 0 then []
    else
      var d := Dedup(s[..|s| - 1]);
      assert s == s[..|s| - 1] + [s[|s| - 1]];
      if s[|s| - 1] in d then d else d + [s[|s| - 1]]
  }

  /**
   * The listing-level AMI check as the search runs it: over the distinct AMI
   * values of the units, stop at the first `null`/0 value or the first value
   * inside the interval.
   */
  method ListingMatchesAmiQualification(b: Bounds, h: Home) returns (matches: bool)
    ensures matches <==> ListingMatchesAmi(b, h)
  {
    if !h.incomeRestricted {
      return true;
    }
    var values := Dedup(AmiValues(h.units));
    matches := false;
    var index := 0;
    while index < |values|
      invariant 0 <= index <= |values|
      invariant !matches
      invariant forall j :: 0 <= j < index ==> !AmiValueMatches(b, values[j])
    {
      var ami := NullIfFalsy(values[index]);
      if ami.None? {
        matches := true;
        break;
      }
      if Le(b.lowerBound, b.upperBound) {
        matches := Ge(Int(ami.value), b.lowerBound) && Le(Int(ami.value), b.upperBound);
      } else if Gt(b.lowerBound, b.upperBound) {
        matches := Ge(Int(ami.value), b.upperBound) && Le(Int(ami.value), b.lowerBound);
      }
      if matches {
        break;
      }
      index := index + 1;
    }
    if matches {
      assert AmiValueMatches(b, values[index]);
      assert values[index] in AmiValues(h.units);
    } else {
      forall i | 0 <= i < |h.units|
        ensures !UnitMatchesAmi(b, h.units[i])
      {
        assert AmiValues(h.units)[i] in values;
      }
    }
  }

  // ---------------------------------------------------------------------------
  // Unit-level tests
  // ---------------------------------------------------------------------------

  /**
   * The rental price test. It applies only when the price filter's upper bound
   * is truthy and the listing is for rent or an apartment; the bounds are put
   * in order, and an upper bound at the slider's top is open-ended.
   * A `null` price compares as 0.
   */
  predicate UnitMatchesRentalPrice(p: Bounds, h: Home, u: Unit) {
    if Truthy(p.upperBound) && (h.offer == "rent" || h.dwellingType == "apt") then
      var lo := if Gt(p.lowerBound, p.upperBound) then p.upperBound else p.lowerBound;
      var up := if Gt(p.lowerBound, p.upperBound) then p.lowerBound else p.upperBound;
      var price := FromNullable(u.price);
      Ge(price, lo) && (Le(price, up) || (up == Int(RentalPriceMaximum) && Ge(price, up)))
    else true
  }

  predicate UnitMatchesBedrooms(b: Flags, u: Unit, relax: bool) {
    || (IsTrue(b, "0") && u.bedrooms == 0)
    || (IsTrue(b, "1") && u.bedrooms == 1)
    || (IsTrue(b, "2") && u.bedrooms == 2)
    || (IsTrue(b, "3+") && u.bedrooms >= 3)
    || (relax && NoneSelected(b, BedroomKeys))
  }

  /** A unit's income ceiling must not exceed the filter's, unless either is 0 or `null`. */
  predicate UnitMatchesIncome(c: Ceiling, u: Unit) {
    var ceiling := NullIfFalsy(u.incomeQualification);
    ceiling.None? || !Truthy(c.upperBound) || Le(Int(ceiling.value), c.upperBound)
  }

  predicate UnitPasses(f: Filters, h: Home, u: Unit, relax: bool) {
    && UnitMatchesRentalPrice(f.rentalPrice, h, u)
    && UnitMatchesBedrooms(f.bedrooms, u, relax)
    && UnitMatchesAmi(f.amiQualification, u)
    && UnitMatchesIncome(f.incomeQualification, u)
  }

  /** The units of `h` (given as `units`) that pass, in order. */
  function KeptUnits(f: Filters, h: Home, relax: bool, units: seq<Unit>): (r: seq<Unit>)
    ensures |r| <= |units|
  {
    if |units| == 0 then []
    else (if UnitPasses(f, h, units[0], relax) then [units[0]] else []) + KeptUnits(f, h, relax, units[1..])
  }

  /** A listing with its units narrowed to those that pass. */
  function Narrowed(f: Filters, h: Home, relax: bool): Home {
    h.(units := KeptUnits(f, h, relax, h.units))
  }

  /** Whether a listing survives the search. */
  predicate Kept(f: Filters, h: Home, relax: bool) {
    ListingPasses(f, h, relax) && |Narrowed(f, h, relax).units| > 0
  }

  /**
   * `filterHomes`: the listings that pass the listing-level test, each with its
   * units narrowed, without those left with no unit. The three passes of the
   * search (filter, map, filter) are fused into one, listing by listing.
   */
  function FilterHomes(homes: seq<Home>, f: Filters, relax: bool): (r: seq<Home>)
    ensures |r| <= |homes|
  {
    if |homes| == 0 then []
    else
      var first := if Kept(f, homes[0], relax) then [Narrowed(f, homes[0], relax)] else [];
      first + FilterHomes(homes[1..], f, relax)
  }

  // ---------------------------------------------------------------------------
  // Shape of the result
  // ---------------------------------------------------------------------------

  /** `a` is `b` with some elements left out, order kept. */
  predicate SubSeq<T(==)>(a: seq<T>, b: seq<T>)
    decreases |b|
  {
    if |a| == 0 then true
    else if |b| == 0 then false
    else (a[0] == b[0] && SubSeq(a[1..], b[1..])) || SubSeq(a, b[1..])
  }

  /** `a` is listing `b` with a non-empty subsequence of its units and every other field as is. */
  predicate RefinesHome(a: Home, b: Home) {
    a == b.(units := a.units) && |a.units| > 0 && SubSeq(a.units, b.units)
  }

  /** `r` is `homes` with listings left out and the rest refined, order kept. */
  predicate Refines(r: seq<Home>, homes: seq<Home>)
    decreases |homes|
  {
    if |r| == 0 then true
    else if |homes| == 0 then false
    else (RefinesHome(r[0], homes[0]) && Refines(r[1..], homes[1..])) || Refines(r, homes[1..])
  }

  lemma {:induction false} KeptUnitsAreSubSeq(f: Filters, h: Home, relax: bool, units: seq<Unit>)
    ensures SubSeq(KeptUnits(f, h, relax, units), units)
    decreases |units|
  {
    if |units| > 0 {
      KeptUnitsAreSubSeq(f, h, relax, units[1..]);
      var rest := KeptUnits(f, h, relax, units[1..]);
      if UnitPasses(f, h, units[0], relax) {
        assert ([units[0]] + rest)[1..] == rest;
      } else if |rest| > 0 {
        assert KeptUnits(f, h, relax, units) == rest;
      }
    }
  }

  /** The search returns an order-preserving selection of the listings, each with a
      non-empty order-preserving selection of its units and its other fields unchanged. */
  lemma {:induction false} FilterHomesRefines(homes: seq<Home>, f: Filters, relax: bool)
    ensures Refines(FilterHomes(homes, f, relax), homes)
    decreases |homes|
  {
    if |homes| > 0 {
      FilterHomesRefines(homes[1..], f, relax);
      var h := homes[0];
      var rest := FilterHomes(homes[1..], f, relax);
      if Kept(f, h, relax) {
        KeptUnitsAreSubSeq(f, h, relax, h.units);
        assert ([Narrowed(f, h, relax)] + rest)[1..] == rest;
      } else if |rest| > 0 {
        assert FilterHomes(homes, f, relax) == rest;
      }
    }
  }

  lemma {:induction false} KeptUnitsMembers(f: Filters, h: Home, relax: bool, units: seq<Unit>)
    ensures forall u :: u in KeptUnits(f, h, relax, units) <==> u in units && UnitPasses(f, h, u, relax)
    decreases |units|
  {
    if |units| > 0 {
      KeptUnitsMembers(f, h, relax, units[1..]);
      assert units == [units[0]] + units[1..];
    }
  }

  /** Every unit of every listing the search returns passes the unit tests. */
  lemma {:induction false} FilterHomesSound(homes: seq<Home>, f: Filters, relax: bool)
    ensures forall x :: x in FilterHomes(homes, f, relax) ==>
      |x.units| > 0 && forall u :: u in x.units ==> UnitPasses(f, x, u, relax)
    decreases |homes|
  {
    if |homes| > 0 {
      FilterHomesSound(homes[1..], f, relax);
      KeptUnitsMembers(f, homes[0], relax, homes[0].units);
    }
  }

  /** The listings returned are exactly the narrowed forms of the listings kept. */
  lemma {:induction false} FilterHomesMembers(homes: seq<Home>, f: Filters, relax: bool)
    ensures forall x :: x in FilterHomes(homes, f, relax) <==>
      exists i :: 0 <= i < |homes| && Kept(f, homes[i], relax) && x == Narrowed(f, homes[i], relax)
    decreases |homes|
  {
    if |homes| > 0 {
      FilterHomesMembers(homes[1..], f, relax);
      var r := FilterHomes(homes, f, relax);
      forall x | x in r
        ensures exists i :: 0 <= i < |homes| && Kept(f, homes[i], relax) && x == Narrowed(f, homes[i], relax)
      {
        if !(Kept(f, homes[0], relax) && x == Narrowed(f, homes[0], relax)) {
          var j :| 0 <= j < |homes[1..]| && Kept(f, homes[1..][j], relax) && x == Narrowed(f, homes[1..][j], relax);
          assert homes[j + 1] == homes[1..][j];
        }
      }
      forall i | 0 <= i < |homes| && Kept(f, homes[i], relax)
        ensures Narrowed(f, homes[i], relax) in r
      {
        if i > 0 {
          assert homes[1..][i - 1] == homes[i];
        }
      }
    }
  }

  // ---------------------------------------------------------------------------
  // Idempotence
  // ---------------------------------------------------------------------------

  lemma {:induction false} KeptUnitsOfPassingUnits(f: Filters, h: Home, relax: bool, units: seq<Unit>)
    requires forall u :: u in units ==> UnitPasses(f, h, u, relax)
    ensures KeptUnits(f, h, relax, units) == units
    decreases |units|
  {
    if |units| > 0 {
      KeptUnitsOfPassingUnits(f, h, relax, units[1..]);
    }
  }

  /** A listing whose units all pass the unit bedroom test passes the listing bedroom test. */
  lemma BedroomsOfPassingUnits(f: Filters, h: Home, relax: bool)
    requires |h.units| > 0
    requires forall u :: u in h.units ==> UnitMatchesBedrooms(f.bedrooms, u, relax)
    ensures MatchesBedrooms(f, h) || (relax && NoneSelected(f.bedrooms, BedroomKeys))
  {
    if !(relax && NoneSelected(f.bedrooms, BedroomKeys)) {
      var sizes := BedroomSizes(h.units);
      if exists i :: 0 <= i < |h.units| && ((IsTrue(f.bedrooms, "0") && sizes[i] == 0)
          || (IsTrue(f.bedrooms, "1") && sizes[i] == 1) || (IsTrue(f.bedrooms, "2") && sizes[i] == 2)) {
        var i :| 0 <= i < |h.units| && ((IsTrue(f.bedrooms, "0") && sizes[i] == 0)
          || (IsTrue(f.bedrooms, "1") && sizes[i] == 1) || (IsTrue(f.bedrooms, "2") && sizes[i] == 2));
        assert sizes[i] in sizes;
      } else {
        var last := SortedLast(sizes);
        var i :| 0 <= i < |sizes| && sizes[i] == last;
        assert h.units[i] in h.units;
        assert UnitMatchesBedrooms(f.bedrooms, h.units[i], relax);
      }
    }
  }

  /** The units a listing keeps all pass again, so narrowing twice is narrowing once. */
  lemma NarrowedUnitsPass(f: Filters, h: Home, relax: bool)
    ensures forall u :: u in Narrowed(f, h, relax).units ==> UnitPasses(f, Narrowed(f, h, relax), u, relax)
    ensures Narrowed(f, Narrowed(f, h, relax), relax) == Narrowed(f, h, relax)
  {
    var n := Narrowed(f, h, relax);
    KeptUnitsMembers(f, h, relax, h.units);
    assert forall u :: UnitPasses(f, n, u, relax) == UnitPasses(f, h, u, relax);
    KeptUnitsOfPassingUnits(f, n, relax, n.units);
  }

  /** A listing the search keeps passes again, narrowed, and keeps all its remaining units. */
  lemma NarrowedPassesAgain(f: Filters, h: Home, relax: bool)
    requires Kept(f, h, relax)
    ensures Kept(f, Narrowed(f, h, relax), relax)
    ensures Narrowed(f, Narrowed(f, h, relax), relax) == Narrowed(f, h, relax)
  {
    var n := Narrowed(f, h, relax);
    NarrowedUnitsPass(f, h, relax);
    assert n.units[0] in n.units;
    BedroomsOfPassingUnits(f, n, relax);
    assert ListingMatchesAmi(f.amiQualification, n);
  }

  /** Searching the result of a search again, with the same filters, changes nothing. */
  lemma {:induction false} FilterHomesIdempotent(homes: seq<Home>, f: Filters, relax: bool)
    ensures FilterHomes(FilterHomes(homes, f, relax), f, relax) == FilterHomes(homes, f, relax)
    decreases |homes|
  {
    if |homes| > 0 {
      FilterHomesIdempotent(homes[1..], f, relax);
      var h := homes[0];
      var rest := FilterHomes(homes[1..], f, relax);
      if Kept(f, h, relax) {
        NarrowedPassesAgain(f, h, relax);
        var r := [Narrowed(f, h, relax)] + rest;
        assert FilterHomes(homes, f, relax) == r;
        assert r[0] == Narrowed(f, h, relax) && r[1..] == rest;
        assert FilterHomes(r, f, relax) == [Narrowed(f, h, relax)] + FilterHomes(rest, f, relax);
      } else {
        assert FilterHomes(homes, f, relax) == [] + rest == rest;
      }
    }
  }

  // ---------------------------------------------------------------------------
  // The AMI bounds form an unordered interval
  // ---------------------------------------------------------------------------

  function Swapped(b: Bounds): Bounds {
    Bounds(b.upperBound, b.lowerBound)
  }

  /** Exchanging the two AMI bounds does not change the interval test. */
  lemma InIntervalSymmetric(ami: int, b: Bounds)
    ensures InInterval(ami, Swapped(b)) == InInterval(ami, b)
  {
    LeOrGt(b.lowerBound, b.upperBound);
  }

  /** For integer bounds, the test is membership in [min, max]. */
  lemma InIntervalIsMinMax(ami: int, b: Bounds)
    requires b.lowerBound.Int? && b.upperBound.Int?
    ensures InInterval(ami, b) <==>
      var lo := b.lowerBound.value;
      var up := b.upperBound.value;
      (if lo <= up then lo else up) <= ami <= (if lo <= up then up else lo)
  {
  }

  lemma {:induction false} KeptUnitsUnderSameTests(f: Filters, g: Filters, h: Home, relax: bool, units: seq<Unit>)
    requires forall u :: u in units ==> UnitPasses(f, h, u, relax) == UnitPasses(g, h, u, relax)
    ensures KeptUnits(f, h, relax, units) == KeptUnits(g, h, relax, units)
    decreases |units|
  {
    if |units| > 0 {
      KeptUnitsUnderSameTests(f, g, h, relax, units[1..]);
    }
  }

  /** Two filter objects that differ only in AMI bounds with the same interval test select the same. */
  lemma {:induction false} FilterHomesUnderSameInterval(homes: seq<Home>, f: Filters, g: Filters, relax: bool)
    requires g == f.(amiQualification := g.amiQualification)
    requires forall a :: InInterval(a, g.amiQualification) == InInterval(a, f.amiQualification)
    ensures FilterHomes(homes, g, relax) == FilterHomes(homes, f, relax)
    decreases |homes|
  {
    if |homes| > 0 {
      FilterHomesUnderSameInterval(homes[1..], f, g, relax);
      var h := homes[0];
      assert forall u :: UnitMatchesAmi(g.amiQualification, u) == UnitMatchesAmi(f.amiQualification, u);
      assert ListingPasses(g, h, relax) == ListingPasses(f, h, relax);
      KeptUnitsUnderSameTests(f, g, h, relax, h.units);
    }
  }

  /** Swapping `lowerBound` and `upperBound` of the AMI filter gives the same search result. */
  lemma FilterHomesAmiSwap(homes: seq<Home>, f: Filters, relax: bool)
    ensures FilterHomes(homes, f.(amiQualification := Swapped(f.amiQualification)), relax)
      == FilterHomes(homes, f, relax)
  {
    var g := f.(amiQualification := Swapped(f.amiQualification));
    forall a: int
      ensures InInterval(a, g.amiQualification) == InInterval(a, f.amiQualification)
    {
      InIntervalSymmetric(a, f.amiQualification);
    }
    FilterHomesUnderSameInterval(homes, f, g, relax);
  }

  // ---------------------------------------------------------------------------
  // Rental price, income and AMI of the units returned
  // ---------------------------------------------------------------------------

  /**
   * The rental price rule in closed form for integer bounds: no test unless the
   * upper bound is non-zero and the listing is for rent or an apartment;
   * otherwise the price must be at least min(lower, upper) and at most
   * max(lower, upper), except that a maximum of 3000 has no ceiling.
   */
  lemma RentalPriceRule(p: Bounds, h: Home, u: Unit)
    requires p.lowerBound.Int? && p.upperBound.Int?
    ensures UnitMatchesRentalPrice(p, h, u) <==>
      var lo := p.lowerBound.value;
      var up := p.upperBound.value;
      var low := if lo <= up then lo else up;
      var high := if lo <= up then up else lo;
      var price := if u.price.None? then 0 else u.price.value;
      up == 0 || (h.offer != "rent" && h.dwellingType != "apt")
      || (low <= price && (price <= high || high == RentalPriceMaximum))
  {
  }

  /** Every unit returned satisfies the income ceiling when both its own and the filter's are set. */
  lemma FilterHomesIncomeCeiling(homes: seq<Home>, f: Filters, relax: bool)
    requires f.incomeQualification.upperBound.Int?
    ensures forall x, u ::
      (x in FilterHomes(homes, f, relax) && u in x.units && u.incomeQualification.Some?
       && u.incomeQualification.value != 0 && f.incomeQualification.upperBound.value != 0) ==>
      u.incomeQualification.value <= f.incomeQualification.upperBound.value
  {
    FilterHomesSound(homes, f, relax);
  }

  /** Every unit returned has no AMI percentage (`null` or 0) or one within the AMI bounds. */
  lemma FilterHomesAmiWithinBounds(homes: seq<Home>, f: Filters, relax: bool)
    requires f.amiQualification.lowerBound.Int? && f.amiQualification.upperBound.Int?
    ensures forall x, u ::
      (x in FilterHomes(homes, f, relax) && u in x.units && u.amiQualification.Some?
       && u.amiQualification.value != 0) ==>
        var lo := f.amiQualification.lowerBound.value;
          var up := f.amiQualification.upperBound.value;
          (lo <= u.amiQualification.value <= up) || (up <= u.amiQualification.value <= lo)
  {
    FilterHomesSound(homes, f, relax);
  }

  // ---------------------------------------------------------------------------
  // Checkbox groups with nothing selected
  // ---------------------------------------------------------------------------

  /** With no offer, city or bedroom option selected, a listing passes exactly when its AMI test does:
      the AMI test is never relaxed. */
  lemma NothingSelectedListing(f: Filters, h: Home)
    requires NoneSelected(f.offer, OfferKeys) && NoneSelected(f.location.city, CityKeys)
    requires NoneSelected(f.bedrooms, BedroomKeys)
    ensures ListingPasses(f, h, true) <==> ListingMatchesAmi(f.amiQualification, h)
    ensures ListingPasses(f, h, false) ==> ListingMatchesAmi(f.amiQualification, h)
  {
  }

  /** With no bedroom option selected, a unit passes on price, AMI and income alone;
      without relaxing, it never passes. */
  lemma NothingSelectedUnit(f: Filters, h: Home, u: Unit)
    requires NoneSelected(f.bedrooms, BedroomKeys)
    ensures UnitPasses(f, h, u, true) <==>
      UnitMatchesRentalPrice(f.rentalPrice, h, u) && UnitMatchesAmi(f.amiQualification, u)
      && UnitMatchesIncome(f.incomeQualification, u)
    ensures !UnitPasses(f, h, u, false)
  {
    assert !IsTrue(f.bedrooms, BedroomKeys[0]) && !IsTrue(f.bedrooms, BedroomKeys[1]);
    assert !IsTrue(f.bedrooms, BedroomKeys[2]) && !IsTrue(f.bedrooms, BedroomKeys[3]);
  }

  // ---------------------------------------------------------------------------
  // The "3+" listing test and the default sort
  // ---------------------------------------------------------------------------

  /** With single-digit bedroom counts, the listing "3+" test asks whether some unit has 3 or more. */
  lemma ThreePlusWithSingleDigits(h: Home)
    requires forall i :: 0 <= i < |h.units| ==> 0 <= h.units[i].bedrooms <= 9
    ensures (|h.units| > 0 && SortedLast(BedroomSizes(h.units)) >= 3) <==>
      exists i :: 0 <= i < |h.units| && h.units[i].bedrooms >= 3
  {
    var sizes := BedroomSizes(h.units);
    if |sizes| > 0 {
      SortedLastOfDigits(sizes);
      if exists i :: 0 <= i < |h.units| && h.units[i].bedrooms >= 3 {
        var i :| 0 <= i < |h.units| && h.units[i].bedrooms >= 3;
        assert sizes[i] in sizes;
      }
    }
  }

  /**
   * A listing whose units have 2 and 10 bedrooms fails the listing test when only
   * "3+" is selected, although its 10-bedroom unit passes the unit test: "10"
   * sorts before "2".
   */
  lemma TenBedroomListingMissesThreePlus(f: Filters, h: Home, relax: bool)
    requires BedroomSizes(h.units) == [2, 10]
    requires f.bedrooms == map["0" := false, "1" := false, "2" := false, "3+" := true]
    ensures UnitMatchesBedrooms(f.bedrooms, h.units[1], relax)
    ensures !ListingPasses(f, h, relax)
  {
    TenSortsBeforeTwo();
    assert h.units[1].bedrooms == BedroomSizes(h.units)[1];
    assert IsTrue(f.bedrooms, BedroomKeys[3]);
  }
}
