/**
 * The filter-change reducer `getNewFilters`: from the input that changed and
 * the current filter object, the next filter object.
 *
 * A checkbox contributes its `checked` flag, any other input its `value`
 * text; under the `amiQualification` and `rentalPrice` criteria the value is
 * first read with `Number.parseInt(·, 10)`. The value is written along one of
 * three paths:
 *   - a checkbox under a parent criterion other than its own name writes
 *     `filters[parent][name][value]`;
 *   - another input under such a parent criterion writes `filters[parent][name]`;
 *   - otherwise the input writes `filters[name][value]`.
 * Then come the cascades: ticking a neighbourhood (a cardinal direction)
 * also ticks `city.boston` (`city.beyondBoston`) if it was not ticked, and a
 * change whose value is "boston" ("beyondBoston") copies the new value to
 * every neighbourhood (cardinal direction).
 *
 * The source copies only the top level of the filter object, so the nested
 * groups it writes are those of the caller; reads made after the write (the
 * cascades' tests and key lists) therefore see the written state, which is
 * what this model reads. The model works on values: the caller's object
 * being changed as well is not represented.
 *
 * Reaching through a branch that does not exist, or writing a property on a
 * flag, a number or `null`, throws a TypeError (the source is a strict-mode
 * module).
 */
module FilterChange {
  import opened Options
  import opened JsNumbers
  import opened Listings

  /** The input element that changed: a checkbox carries `checked`, any other input its `value`. */
  datatype Input = Input(isCheckbox: bool, checked: bool, name: string, value: string)

  /** The change event; `parentCriterion` is the optional `event.metrolist.parentCriterion`. */
  datatype ChangeEvent = ChangeEvent(target: Input, parentCriterion: Option<string>)

  /** The value written: a flag, a parsed number or text. */
  datatype NewValue = Flag(b: bool) | Number(n: JsNumber) | Text(s: string)

  datatype Outcome = Updated(filters: Filters) | TypeError

  /** The checkbox groups of a filter object. */
  datatype Group = OfferGroup | CityGroup | NeighborhoodGroup | DirectionGroup | BedroomsGroup

  /** What a property path of the filter object leads to. */
  datatype Target =
    | GroupAt(group: Group)
    | BoundsAt(isRentalPrice: bool)
    | CeilingAt
    | LocationAt
    | NotAnObject

  // ---------------------------------------------------------------------------
  // The value and where it goes
  // ---------------------------------------------------------------------------

  predicate IsNumeric(e: ChangeEvent) {
    e.parentCriterion == Some("amiQualification") || e.parentCriterion == Some("rentalPrice")
  }

  /** `String(x)` of the raw value, as `parseInt` reads it. */
  function RawText(i: Input): string {
    if !i.isCheckbox then i.value else if i.checked then "true" else "false"
  }

  function NewValueOf(e: ChangeEvent): (v: NewValue)
    ensures IsNumeric(e) ==> v.Number? && !v.n.Null?
    ensures !IsNumeric(e) && e.target.isCheckbox ==> v == Flag(e.target.checked)
  {
    if IsNumeric(e) then Number(ParseInt(RawText(e.target)))
    else if e.target.isCheckbox then Flag(e.target.checked)
    else Text(e.target.value)
  }

  /** JavaScript truthiness of the value. */
  predicate TruthyValue(v: NewValue) {
    match v
    case Flag(b) => b
    case Number(n) => Truthy(n)
    case Text(s) => |s| > 0
  }

  /** `filters[name]`. */
  function Branch(name: string): Target {
    if name == "offer" then GroupAt(OfferGroup)
    else if name == "location" then LocationAt
    else if name == "bedrooms" then GroupAt(BedroomsGroup)
    else if name == "amiQualification" then BoundsAt(false)
    else if name == "rentalPrice" then BoundsAt(true)
    else if name == "incomeQualification" then CeilingAt
    else NotAnObject
  }

  /** `filters[parent][name]`: only the three location groups are objects. */
  function Child(parent: string, name: string): Target {
    if parent == "location" && name == "city" then GroupAt(CityGroup)
    else if parent == "location" && name == "neighborhood" then GroupAt(NeighborhoodGroup)
    else if parent == "location" && name == "cardinalDirection" then GroupAt(DirectionGroup)
    else NotAnObject
  }

  /** Whether the input writes under a parent criterion other than its own name. */
  predicate SpecialCase(e: ChangeEvent) {
    e.parentCriterion.Some? && e.parentCriterion.value != e.target.name
  }

  /** The object written to and the key written. */
  function WritePath(e: ChangeEvent): (Target, string) {
    if SpecialCase(e) && e.target.isCheckbox then (Child(e.parentCriterion.value, e.target.name), e.target.value)
    else if SpecialCase(e) then (Branch(e.parentCriterion.value), e.target.name)
    else (Branch(e.target.name), e.target.value)
  }

  function GroupOf(f: Filters, g: Group): Flags {
    match g
    case OfferGroup => f.offer
    case CityGroup => f.location.city
    case NeighborhoodGroup => f.location.neighborhood
    case DirectionGroup => f.location.cardinalDirection
    case BedroomsGroup => f.bedrooms
  }

  function WithGroup(f: Filters, g: Group, m: Flags): (r: Filters)
    ensures GroupOf(r, g) == m
  {
    match g
    case OfferGroup => f.(offer := m)
    case CityGroup => f.(location := f.location.(city := m))
    case NeighborhoodGroup => f.(location := f.location.(neighborhood := m))
    case DirectionGroup => f.(location := f.location.(cardinalDirection := m))
    case BedroomsGroup => f.(bedrooms := m)
  }

  function WithBound(b: Bounds, key: string, n: JsNumber): Bounds
    requires key == "lowerBound" || key == "upperBound"
  {
    if key == "lowerBound" then b.(lowerBound := n) else b.(upperBound := n)
  }

  /** Whether the typed filter record can hold the write (a flag into a group, a number into a bound). */
  predicate Representable(t: Target, key: string, v: NewValue) {
    || t.NotAnObject?
    || (t.GroupAt? && v.Flag?)
    || (t.BoundsAt? && v.Number? && (key == "lowerBound" || key == "upperBound"))
  }

  function Write(f: Filters, t: Target, key: string, v: NewValue): Filters
    requires !t.NotAnObject? && Representable(t, key, v)
  {
    if t.GroupAt? then WithGroup(f, t.group, GroupOf(f, t.group)[key := v.b])
    else if t.isRentalPrice then f.(rentalPrice := WithBound(f.rentalPrice, key, v.n))
    else f.(amiQualification := WithBound(f.amiQualification, key, v.n))
  }

  /** A write only adds or sets a key: every group keeps the options it had. */
  lemma WriteKeepsKeys(f: Filters, t: Target, key: string, v: NewValue, g: Group)
    requires !t.NotAnObject? && Representable(t, key, v)
    ensures GroupOf(f, g).Keys <= GroupOf(Write(f, t, key, v), g).Keys
  {
    if t.GroupAt? && t.group == g {
      assert GroupOf(Write(f, t, key, v), g) == GroupOf(f, g)[key := v.b];
    }
  }

  /** The filters after the write, before the cascades. */
  function Written(e: ChangeEvent, f: Filters): Filters
    requires !WritePath(e).0.NotAnObject?
    requires Representable(WritePath(e).0, WritePath(e).1, NewValueOf(e))
  {
    Write(f, WritePath(e).0, WritePath(e).1, NewValueOf(e))
  }

  /**
   * What the source demands of a change for the typed record to hold its
   * result: the write stores a flag in a group or a number in a bound, and
   * every cascade that writes stores a flag.
   */
  predicate Admissible(e: ChangeEvent, f: Filters) {
    var (t, key) := WritePath(e);
    var v := NewValueOf(e);
    Representable(t, key, v) &&
    (!t.NotAnObject? ==>
      var w := Write(f, t, key, v);
      && ((e.target.name == "neighborhood" || e.target.name == "cardinalDirection") && TruthyValue(v) ==> v.Flag?)
      && (e.target.value == "boston" && |w.location.neighborhood| > 0 ==> v.Flag?)
      && (e.target.value == "beyondBoston" && |w.location.cardinalDirection| > 0 ==> v.Flag?))
  }

  // ---------------------------------------------------------------------------
  // The reducer, specified
  // ---------------------------------------------------------------------------

  /** The "neighborhood"/"cardinalDirection" cascade onto the city group. */
  function CityCascade(e: ChangeEvent, w: Filters, v: NewValue): Filters
    requires (e.target.name == "neighborhood" || e.target.name == "cardinalDirection") && TruthyValue(v) ==> v.Flag?
  {
    if e.target.name == "neighborhood" && TruthyValue(v) && !IsTrue(w.location.city, "boston") then
      w.(location := w.location.(city := w.location.city["boston" := v.b]))
    else if e.target.name == "cardinalDirection" && TruthyValue(v) && !IsTrue(w.location.city, "beyondBoston") then
      w.(location := w.location.(city := w.location.city["beyondBoston" := v.b]))
    else w
  }

  /** The "boston"/"beyondBoston" cascade onto every neighbourhood or cardinal direction. */
  function GroupCascade(e: ChangeEvent, c: Filters, v: NewValue): Filters
    requires e.target.value == "boston" && |c.location.neighborhood| > 0 ==> v.Flag?
    requires e.target.value == "beyondBoston" && |c.location.cardinalDirection| > 0 ==> v.Flag?
  {
    if e.target.value == "boston" then
      c.(location := c.location.(neighborhood := map k | k in c.location.neighborhood :: v.b))
    else if e.target.value == "beyondBoston" then
      c.(location := c.location.(cardinalDirection := map k | k in c.location.cardinalDirection :: v.b))
    else c
  }

  function NewFilters(e: ChangeEvent, f: Filters): Outcome
    requires Admissible(e, f)
  {
    var (t, key) := WritePath(e);
    if t.NotAnObject? then TypeError
    else
      var v := NewValueOf(e);
      assert Representable(t, key, v);
      var w := Written(e, f);
      assert w == Write(f, t, key, v);
      var c := CityCascade(e, w, v);
      assert c.location.neighborhood == w.location.neighborhood;
      assert c.location.cardinalDirection == w.location.cardinalDirection;
      Updated(GroupCascade(e, c, v))
  }

  // ---------------------------------------------------------------------------
  // The reducer, step by step
  // ---------------------------------------------------------------------------

  /** `getNewFilters(event, filters)`. */
  method GetNewFilters(e: ChangeEvent, f: Filters) returns (r: Outcome)
    requires Admissible(e, f)
    ensures r == NewFilters(e, f)
  {
    var target, key, newValue := Resolve(e);
    if target.NotAnObject? {
      return TypeError;
    }
    var next := Write(f, target, key, newValue);
    next := CascadeToCity(e, next, newValue);
    next := CascadeToGroup(e, next, newValue);
    return Updated(next);
  }

  /** The value and the write path: the start of `getNewFilters`. */
  method Resolve(e: ChangeEvent) returns (target: Target, key: string, newValue: NewValue)
    ensures (target, key) == WritePath(e) && newValue == NewValueOf(e)
  {
    var input := e.target;
    newValue := if input.isCheckbox then Flag(input.checked) else Text(input.value);
    var specialCase := false;
    if e.parentCriterion.Some? {
      var parentCriterion := e.parentCriterion.value;
      if parentCriterion == "amiQualification" || parentCriterion == "rentalPrice" {
        newValue := Number(ParseInt(RawText(input)));
      }
      if parentCriterion != input.name {
        specialCase := true;
        if input.isCheckbox {
          target, key := Child(parentCriterion, input.name), input.value;
        } else {
          target, key := Branch(parentCriterion), input.name;
        }
      }
    }
    if !specialCase {
      target, key := Branch(input.name), input.value;
    }
  }

  /** The `switch` on the input's name. */
  method CascadeToCity(e: ChangeEvent, w: Filters, newValue: NewValue) returns (next: Filters)
    requires (e.target.name == "neighborhood" || e.target.name == "cardinalDirection") && TruthyValue(newValue) ==> newValue.Flag?
    ensures next == CityCascade(e, w, newValue)
  {
    next := w;
    if e.target.name == "neighborhood" {
      if TruthyValue(newValue) && !IsTrue(next.location.city, "boston") {
        next := next.(location := next.location.(city := next.location.city["boston" := newValue.b]));
      }
    } else if e.target.name == "cardinalDirection" {
      if TruthyValue(newValue) && !IsTrue(next.location.city, "beyondBoston") {
        next := next.(location := next.location.(city := next.location.city["beyondBoston" := newValue.b]));
      }
    }
  }

  /** The `switch` on the input's value. */
  method CascadeToGroup(e: ChangeEvent, c: Filters, newValue: NewValue) returns (next: Filters)
    requires e.target.value == "boston" && |c.location.neighborhood| > 0 ==> newValue.Flag?
    requires e.target.value == "beyondBoston" && |c.location.cardinalDirection| > 0 ==> newValue.Flag?
    ensures next == GroupCascade(e, c, newValue)
  {
    next := c;
    if e.target.value == "boston" {
      if |c.location.neighborhood| > 0 {
        var neighborhoods := SetEveryKey(c.location.neighborhood, newValue.b);
        assert neighborhoods == map k | k in c.location.neighborhood :: newValue.b;
        next := c.(location := c.location.(neighborhood := neighborhoods));
      }
    } else if e.target.value == "beyondBoston" {
      if |c.location.cardinalDirection| > 0 {
        var directions := SetEveryKey(c.location.cardinalDirection, newValue.b);
        assert directions == map k | k in c.location.cardinalDirection :: newValue.b;
        next := c.(location := c.location.(cardinalDirection := directions));
      }
    }
  }

  // ---------------------------------------------------------------------------
  // Properties of the reducer
  // ---------------------------------------------------------------------------

  /** Ticking a neighbourhood leaves "Boston" ticked; unticking one leaves the city group as it was. */
  lemma NeighborhoodTickCascade(e: ChangeEvent, f: Filters)
    requires Admissible(e, f) && e.target.name == "neighborhood" && NewFilters(e, f).Updated?
    ensures TruthyValue(NewValueOf(e)) ==> IsTrue(NewFilters(e, f).filters.location.city, "boston")
    ensures !TruthyValue(NewValueOf(e)) ==> NewFilters(e, f).filters.location.city == f.location.city
  {
    assert WritePath(e).0 == GroupAt(NeighborhoodGroup);
    var v := NewValueOf(e);
    var w := Written(e, f);
    assert w.location.city == f.location.city;
    var c := CityCascade(e, w, v);
    assert GroupCascade(e, c, v).location.city == c.location.city;
  }

  /** Ticking a cardinal direction leaves "Beyond Boston" ticked; unticking one leaves the city group. */
  lemma DirectionTickCascade(e: ChangeEvent, f: Filters)
    requires Admissible(e, f) && e.target.name == "cardinalDirection" && NewFilters(e, f).Updated?
    ensures TruthyValue(NewValueOf(e)) ==> IsTrue(NewFilters(e, f).filters.location.city, "beyondBoston")
    ensures !TruthyValue(NewValueOf(e)) ==> NewFilters(e, f).filters.location.city == f.location.city
  {
    assert WritePath(e).0 == GroupAt(DirectionGroup);
    var v := NewValueOf(e);
    var w := Written(e, f);
    assert w.location.city == f.location.city;
    var c := CityCascade(e, w, v);
    assert GroupCascade(e, c, v).location.city == c.location.city;
  }

  /** A change whose value is "boston" gives every neighbourhood the new value, and keeps them all. */
  lemma BostonCascade(e: ChangeEvent, f: Filters)
    requires Admissible(e, f) && e.target.value == "boston" && NewFilters(e, f).Updated?
    ensures f.location.neighborhood.Keys <= NewFilters(e, f).filters.location.neighborhood.Keys
    ensures forall k :: k in NewFilters(e, f).filters.location.neighborhood ==>
      NewValueOf(e) == Flag(NewFilters(e, f).filters.location.neighborhood[k])
  {
    var v := NewValueOf(e);
    var w := Written(e, f);
    WriteKeepsKeys(f, WritePath(e).0, WritePath(e).1, v, NeighborhoodGroup);
    var c := CityCascade(e, w, v);
    assert c.location.neighborhood == w.location.neighborhood;
    var r := GroupCascade(e, c, v);
    assert NewFilters(e, f) == Updated(r);
    assert r.location.neighborhood == map k | k in c.location.neighborhood :: v.b;
  }

  /** A change whose value is "beyondBoston" gives every cardinal direction the new value. */
  lemma BeyondBostonCascade(e: ChangeEvent, f: Filters)
    requires Admissible(e, f) && e.target.value == "beyondBoston" && NewFilters(e, f).Updated?
    ensures f.location.cardinalDirection.Keys <= NewFilters(e, f).filters.location.cardinalDirection.Keys
    ensures forall k :: k in NewFilters(e, f).filters.location.cardinalDirection ==>
      NewValueOf(e) == Flag(NewFilters(e, f).filters.location.cardinalDirection[k])
  {
    var v := NewValueOf(e);
    var w := Written(e, f);
    WriteKeepsKeys(f, WritePath(e).0, WritePath(e).1, v, DirectionGroup);
    var c := CityCascade(e, w, v);
    assert c.location.cardinalDirection == w.location.cardinalDirection;
    var r := GroupCascade(e, c, v);
    assert NewFilters(e, f) == Updated(r);
    assert r.location.cardinalDirection == map k | k in c.location.cardinalDirection :: v.b;
  }

  /** The cascades touch only the location groups: the slider pairs are as written. */
  lemma CascadesKeepBounds(e: ChangeEvent, f: Filters)
    requires Admissible(e, f) && !WritePath(e).0.NotAnObject?
    ensures NewFilters(e, f).Updated?
    ensures NewFilters(e, f).filters.rentalPrice == Written(e, f).rentalPrice
    ensures NewFilters(e, f).filters.amiQualification == Written(e, f).amiQualification
  {
    var v := NewValueOf(e);
    var w := Written(e, f);
    var c := CityCascade(e, w, v);
    assert c.rentalPrice == w.rentalPrice && c.amiQualification == w.amiQualification;
    var r := GroupCascade(e, c, v);
    assert r.rentalPrice == c.rentalPrice && r.amiQualification == c.amiQualification;
  }

  /** A slider change writes `parseInt` of its text into the bound it names. */
  lemma SliderWrite(e: ChangeEvent, f: Filters)
    requires IsNumeric(e) && !e.target.isCheckbox
    requires e.target.name == "lowerBound" || e.target.name == "upperBound"
    ensures WritePath(e) == (BoundsAt(e.parentCriterion == Some("rentalPrice")), e.target.name)
    ensures NewValueOf(e) == Number(ParseInt(e.target.value))
    ensures
      var w := Written(e, f);
      var b := if e.parentCriterion == Some("rentalPrice") then w.rentalPrice else w.amiQualification;
      (if e.target.name == "lowerBound" then b.lowerBound else b.upperBound) == ParseInt(e.target.value)
  {
    var p := e.parentCriterion.value;
    var t := BoundsAt(p == "rentalPrice");
    assert |e.target.name| == 10;
    if p == "rentalPrice" {
      assert Branch(p) == t;
    } else {
      assert |p| == 16;
      assert Branch(p) == t;
    }
    assert SpecialCase(e);
    assert WritePath(e) == (t, e.target.name);
    var v := Number(ParseInt(e.target.value));
    assert NewValueOf(e) == v;
    assert Written(e, f) == Write(f, t, e.target.name, v);
  }

  /**
   * A slider under `amiQualification` or `rentalPrice` stores the base-10
   * integer read from its value in the bound it names, never `null`; a value
   * written with `String(n)` is stored as `n`.
   */
  lemma SliderStoresInteger(e: ChangeEvent, f: Filters, n: int)
    requires Admissible(e, f) && IsNumeric(e) && !e.target.isCheckbox
    requires e.target.name == "lowerBound" || e.target.name == "upperBound"
    ensures NewFilters(e, f).Updated?
    ensures
      var r := NewFilters(e, f).filters;
      var b := if e.parentCriterion == Some("rentalPrice") then r.rentalPrice else r.amiQualification;
      var stored := if e.target.name == "lowerBound" then b.lowerBound else b.upperBound;
      stored == ParseInt(e.target.value) && !stored.Null?
      && (e.target.value == IntToString(n) ==> stored == Int(n))
  {
    SliderWrite(e, f);
    CascadesKeepBounds(e, f);
    if e.target.value == IntToString(n) {
      ParseIntOfIntToString(n);
    }
  }

  /** Ticking an offer option changes that option and nothing else. */
  lemma OfferTickChangesOnlyOffer(e: ChangeEvent, f: Filters)
    requires e.parentCriterion.None? && e.target.isCheckbox && e.target.name == "offer"
    requires e.target.value != "boston" && e.target.value != "beyondBoston"
    ensures Admissible(e, f)
    ensures NewFilters(e, f) == Updated(f.(offer := f.offer[e.target.value := e.target.checked]))
  {
  }

  /** A change without a parent criterion whose name is not a top-level branch throws. */
  lemma UnknownBranchThrows(e: ChangeEvent, f: Filters)
    requires e.parentCriterion.None? && e.target.name !in BranchNames
    ensures Admissible(e, f) && NewFilters(e, f) == TypeError
  {
  }

  /** A neighbourhood checkbox must name `location` as its parent criterion; without it the
      reducer reaches for a `neighborhood` branch that does not exist. */
  lemma NeighborhoodNeedsParent(e: ChangeEvent, f: Filters)
    requires e.target.name == "neighborhood" && e.target.isCheckbox
    ensures Admissible(e, f)
    ensures NewFilters(e, f).Updated? <==> e.parentCriterion == Some("location")
  {
    if e.parentCriterion == Some("location") {
      assert !IsNumeric(e) && NewValueOf(e) == Flag(e.target.checked);
      assert WritePath(e) == (GroupAt(NeighborhoodGroup), e.target.value);
    } else {
      assert WritePath(e).0 == NotAnObject;
    }
  }
}
