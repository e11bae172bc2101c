/**
 * The counts shown beside the filter options: how many listings are for rent
 * and for sale, in Boston and beyond, and in each neighbourhood and cardinal
 * direction. The search keeps them in one object that it resets and then
 * increments listing by listing.
 */
module ListingCounts {
  import opened Options
  import opened JsNumbers
  import opened Listings
  import Matching

  /** `toLowerCase` on the letters A to Z. */
  function ToLower(s: string): (r: string)
    ensures |r| == |s|
    ensures forall i :: 0 <= i < |s| ==> r[i] == (if 'A' <= s[i] <= 'Z' then (s[i] as int + 32) as char else s[i])
  {
    if |s| == 0 then []
    else [if 'A' <= s[0] <= 'Z' then (s[0] as int + 32) as char else s[0]] + ToLower(s[1..])
  }

  /** A nullable string that is neither `null` nor empty. */
  predicate Present(s: Option<string>) {
    s.Some? && |s.value| > 0
  }

  predicate InBoston(h: Home) {
    Present(h.city) && ToLower(h.city.value) == "boston"
  }

  predicate BeyondBoston(h: Home) {
    Present(h.city) && ToLower(h.city.value) != "boston"
  }

  /** A listing is counted under its neighbourhood if it has one, else under its cardinal direction. */
  predicate CountedByDirection(h: Home) {
    !Present(h.neighborhood) && Present(h.cardinalDirection)
  }

  // ---------------------------------------------------------------------------
  // The counts, as functions of the listings seen so far
  // ---------------------------------------------------------------------------

  function OfferCount(homes: seq<Home>, offer: string): (n: nat)
    ensures n <= |homes|
  {
    if |homes| == 0 then 0
    else OfferCount(homes[..|homes| - 1], offer) + (if homes[|homes| - 1].offer == offer then 1 else 0)
  }

  function BostonCount(homes: seq<Home>): (n: nat)
    ensures n <= |homes|
  {
    if |homes| == 0 then 0
    else BostonCount(homes[..|homes| - 1]) + (if InBoston(homes[|homes| - 1]) then 1 else 0)
  }

  function BeyondBostonCount(homes: seq<Home>): (n: nat)
    ensures n <= |homes|
  {
    if |homes| == 0 then 0
    else BeyondBostonCount(homes[..|homes| - 1]) + (if BeyondBoston(homes[|homes| - 1]) then 1 else 0)
  }

  function CityCount(homes: seq<Home>): (n: nat)
    ensures n <= |homes|
  {
    if |homes| == 0 then 0
    else CityCount(homes[..|homes| - 1]) + (if Present(homes[|homes| - 1].city) then 1 else 0)
  }

  /** One listing added to the neighbourhood counts: the first one of a name sets its count to 1. */
  function AddNeighborhood(counts: map<string, nat>, h: Home): map<string, nat> {
    if Present(h.neighborhood) then
      var k := h.neighborhood.value;
      counts[k := if k in counts then counts[k] + 1 else 1]
    else counts
  }

  function NeighborhoodCounts(homes: seq<Home>): map<string, nat> {
    if |homes| == 0 then map[]
    else AddNeighborhood(NeighborhoodCounts(homes[..|homes| - 1]), homes[|homes| - 1])
  }

  const InitialCardinalCounts: map<string, JsNumber> := map["west" := Int(0), "north" := Int(0), "south" := Int(0)]

  /** One listing added to the direction counts; `++` on a missing key gives `NaN`. */
  function AddDirection(counts: map<string, JsNumber>, h: Home): map<string, JsNumber> {
    if CountedByDirection(h) then
      var k := h.cardinalDirection.value;
      counts[k := if k in counts && counts[k].Int? then Int(counts[k].value + 1) else NaN]
    else counts
  }

  function CardinalCounts(homes: seq<Home>): map<string, JsNumber> {
    if |homes| == 0 then InitialCardinalCounts
    else AddDirection(CardinalCounts(homes[..|homes| - 1]), homes[|homes| - 1])
  }

  /** Each count of one more listing, in terms of the counts before it. */
  lemma CountsStep(seen: seq<Home>, home: Home)
    ensures OfferCount(seen + [home], "rent") == OfferCount(seen, "rent") + (if home.offer == "rent" then 1 else 0)
    ensures OfferCount(seen + [home], "sale") == OfferCount(seen, "sale") + (if home.offer == "sale" then 1 else 0)
    ensures BostonCount(seen + [home]) == BostonCount(seen) + (if InBoston(home) then 1 else 0)
    ensures BeyondBostonCount(seen + [home]) == BeyondBostonCount(seen) + (if BeyondBoston(home) then 1 else 0)
    ensures NeighborhoodCounts(seen + [home]) == AddNeighborhood(NeighborhoodCounts(seen), home)
    ensures CardinalCounts(seen + [home]) == AddDirection(CardinalCounts(seen), home)
  {
    var all := seen + [home];
    assert all[..|all| - 1] == seen && all[|all| - 1] == home;
  }

  // ---------------------------------------------------------------------------
  // The counter object
  // ---------------------------------------------------------------------------

  class Counts {
    var rent: nat
    var sale: nat
    var boston: nat
    var beyondBoston: nat
    var neighborhood: map<string, nat>
    var cardinalDirection: map<string, JsNumber>
    var rentalPriceLowerBound: int
    var rentalPriceUpperBound: int

    /** All counts zero, no neighbourhood, the three directions at 0. */
    predicate Cleared()
      reads this
    {
      && rent == 0 && sale == 0 && boston == 0 && beyondBoston == 0
      && neighborhood == map[] && cardinalDirection == InitialCardinalCounts
      && rentalPriceLowerBound == 0 && rentalPriceUpperBound == 0
    }

    /** The counts of exactly the listings `homes`. */
    predicate Counted(homes: seq<Home>)
      reads this
    {
      && rent == OfferCount(homes, "rent") && sale == OfferCount(homes, "sale")
      && boston == BostonCount(homes) && beyondBoston == BeyondBostonCount(homes)
      && neighborhood == NeighborhoodCounts(homes) && cardinalDirection == CardinalCounts(homes)
      && rentalPriceLowerBound == 0 && rentalPriceUpperBound == 0
    }

    constructor()
      ensures Cleared()
    {
      rent, sale, boston, beyondBoston := 0, 0, 0, 0;
      neighborhood := map[];
      cardinalDirection := InitialCardinalCounts;
      rentalPriceLowerBound, rentalPriceUpperBound := 0, 0;
    }

    /** `clearListingCounts`. */
    method Clear()
      modifies this
      ensures Cleared() && Counted([])
    {
      rent, sale, boston, beyondBoston := 0, 0, 0, 0;
      neighborhood := map[];
      cardinalDirection := InitialCardinalCounts;
      rentalPriceLowerBound, rentalPriceUpperBound := 0, 0;
    }

    /** `populateListingCounts`: clear, then count every listing. Nothing carries over
        from earlier calls. */
    method Populate(homes: seq<Home>)
      modifies this
      ensures Counted(homes)
    {
      Clear();
      for i := 0 to |homes|
        invariant Counted(homes[..i])
      {
        assert homes[..i + 1] == homes[..i] + [homes[i]];
        Add(homes[i], homes[..i]);
      }
      assert homes[..|homes|] == homes;
    }

    /** The body of the counting loop: one more listing counted. */
    method Add(home: Home, ghost seen: seq<Home>)
      modifies this
      requires Counted(seen)
      ensures Counted(seen + [home])
    {
      CountsStep(seen, home);
      CountOffer(home);
      CountCity(home);
      CountLocation(home);
    }

    method CountOffer(home: Home)
      modifies this
      ensures sale == old(sale) + (if home.offer == "sale" then 1 else 0)
      ensures rent == old(rent) + (if home.offer == "rent" then 1 else 0)
      ensures boston == old(boston) && beyondBoston == old(beyondBoston)
      ensures neighborhood == old(neighborhood) && cardinalDirection == old(cardinalDirection)
      ensures rentalPriceLowerBound == old(rentalPriceLowerBound)
      ensures rentalPriceUpperBound == old(rentalPriceUpperBound)
    {
      if home.offer == "sale" {
        sale := sale + 1;
      } else if home.offer == "rent" {
        rent := rent + 1;
      }
    }

    method CountCity(home: Home)
      modifies this
      ensures boston == old(boston) + (if InBoston(home) then 1 else 0)
      ensures beyondBoston == old(beyondBoston) + (if BeyondBoston(home) then 1 else 0)
      ensures sale == old(sale) && rent == old(rent)
      ensures neighborhood == old(neighborhood) && cardinalDirection == old(cardinalDirection)
      ensures rentalPriceLowerBound == old(rentalPriceLowerBound)
      ensures rentalPriceUpperBound == old(rentalPriceUpperBound)
    {
      if Present(home.city) {
        if ToLower(home.city.value) == "boston" {
          boston := boston + 1;
        } else {
          beyondBoston := beyondBoston + 1;
        }
      }
    }

    method CountLocation(home: Home)
      modifies this
      ensures neighborhood == AddNeighborhood(old(neighborhood), home)
      ensures cardinalDirection == AddDirection(old(cardinalDirection), home)
      ensures sale == old(sale) && rent == old(rent)
      ensures boston == old(boston) && beyondBoston == old(beyondBoston)
      ensures rentalPriceLowerBound == old(rentalPriceLowerBound)
      ensures rentalPriceUpperBound == old(rentalPriceUpperBound)
    {
      if Present(home.neighborhood) {
        var key := home.neighborhood.value;
        if key in neighborhood {
          neighborhood := neighborhood[key := neighborhood[key] + 1];
        } else {
          neighborhood := neighborhood[key := 1];
        }
      } else if Present(home.cardinalDirection) {
        var key := home.cardinalDirection.value;
        if key in cardinalDirection && cardinalDirection[key].Int? {
          cardinalDirection := cardinalDirection[key := Int(cardinalDirection[key].value + 1)];
        } else {
          cardinalDirection := cardinalDirection[key := NaN];
        }
      }
    }
  }

  // ---------------------------------------------------------------------------
  // What the counts mean
  // ---------------------------------------------------------------------------

  /** The number of listings in `homes` with the given neighbourhood. */
  function CountOf(homes: seq<Home>, name: string): nat {
    if |homes| == 0 then 0
    else
      var last := if homes[|homes| - 1].neighborhood == Some(name) then 1 else 0;
      CountOf(homes[..|homes| - 1], name) + last
  }

  /** The number of listings in `homes` counted under the given direction. */
  function DirectionCountOf(homes: seq<Home>, direction: string): nat {
    if |homes| == 0 then 0
    else
      var h := homes[|homes| - 1];
      var last := if CountedByDirection(h) && h.cardinalDirection == Some(direction) then 1 else 0;
      DirectionCountOf(homes[..|homes| - 1], direction) + last
  }

  /** Each neighbourhood's count is the number of listings in it, and only neighbourhoods
      that occur have a count. */
  lemma {:induction false} NeighborhoodCountsCount(homes: seq<Home>)
    ensures forall name :: name in NeighborhoodCounts(homes) <==> |name| > 0 && CountOf(homes, name) > 0
    ensures forall name :: name in NeighborhoodCounts(homes) ==> NeighborhoodCounts(homes)[name] == CountOf(homes, name)
  {
    if |homes| > 0 {
      NeighborhoodCountsCount(homes[..|homes| - 1]);
    }
  }

  /** A listing with a cardinal direction outside the three known ones turns that count into `NaN`;
      the three known directions count their listings. */
  lemma {:induction false} CardinalCountsCount(homes: seq<Home>)
    ensures forall d :: d in InitialCardinalCounts ==> d in CardinalCounts(homes)
    ensures forall d :: d in CardinalCounts(homes) && d !in InitialCardinalCounts ==>
      CardinalCounts(homes)[d] == NaN
    ensures forall d :: d in InitialCardinalCounts ==>
      CardinalCounts(homes)[d] == Int(DirectionCountOf(homes, d))
  {
    if |homes| > 0 {
      CardinalCountsCount(homes[..|homes| - 1]);
    }
  }

  /** Counting a concatenation adds the counts. */
  lemma {:induction false} OfferCountAppend(a: seq<Home>, b: seq<Home>, offer: string)
    ensures OfferCount(a + b, offer) == OfferCount(a, offer) + OfferCount(b, offer)
    decreases |b|
  {
    if |b| > 0 {
      OfferCountAppend(a, b[..|b| - 1], offer);
      assert (a + b)[..|a + b| - 1] == a + b[..|b| - 1];
    } else {
      assert a + b == a;
    }
  }

  /** Every listing is counted at most once between rent and sale. */
  lemma {:induction false} RentAndSaleAtMostAll(homes: seq<Home>)
    ensures OfferCount(homes, "rent") + OfferCount(homes, "sale") <= |homes|
  {
    if |homes| > 0 {
      RentAndSaleAtMostAll(homes[..|homes| - 1]);
    }
  }

  /** Every listing with a city is counted exactly once between Boston and beyond Boston,
      whatever the letter case of "Boston". */
  lemma {:induction false} CitiesSplit(homes: seq<Home>)
    ensures BostonCount(homes) + BeyondBostonCount(homes) == CityCount(homes)
  {
    if |homes| > 0 {
      CitiesSplit(homes[..|homes| - 1]);
    }
  }

  lemma CapitalisedBostonCounts(city: string)
    requires city == "Boston" || city == "BOSTON"
    ensures ToLower(city) == "boston"
  {
    var r := ToLower(city);
    assert r[0] == 'b' && r[1] == 'o' && r[2] == 's';
    assert r[3] == 't' && r[4] == 'o' && r[5] == 'n';
  }

  /** Counting from the front: the first listing, then the rest. */
  lemma OfferCountFront(homes: seq<Home>, offer: string)
    requires |homes| > 0
    ensures OfferCount(homes, offer) == (if homes[0].offer == offer then 1 else 0) + OfferCount(homes[1..], offer)
  {
    OfferCountAppend([homes[0]], homes[1..], offer);
    assert [homes[0]] + homes[1..] == homes;
  }

  /** A search never shows more listings for rent or for sale than there are. */
  lemma {:induction false} OfferCountAfterSearch(r: seq<Home>, homes: seq<Home>, offer: string)
    requires Matching.Refines(r, homes)
    ensures OfferCount(r, offer) <= OfferCount(homes, offer)
    decreases |homes|
  {
    if |r| > 0 && |homes| > 0 {
      OfferCountFront(homes, offer);
      if Matching.RefinesHome(r[0], homes[0]) && Matching.Refines(r[1..], homes[1..]) {
        OfferCountAfterSearch(r[1..], homes[1..], offer);
        OfferCountFront(r, offer);
      } else {
        OfferCountAfterSearch(r, homes[1..], offer);
      }
    }
  }

  /** The rent and sale counts of a search's result never exceed those of its input. */
  lemma FilterHomesCounts(homes: seq<Home>, f: Filters, relax: bool, offer: string)
    ensures OfferCount(Matching.FilterHomes(homes, f, relax), offer) <= OfferCount(homes, offer)
  {
    Matching.FilterHomesRefines(homes, f, relax);
    OfferCountAfterSearch(Matching.FilterHomes(homes, f, relax), homes, offer);
  }
}
