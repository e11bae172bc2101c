/**
 * The AMI estimator's result step: from a household's size, income and pay
 * frequency, the percentage of the 100% Area Median Income ceiling that the
 * household earns, the search threshold recommended from it, and whether it
 * is too high to qualify for any listing.
 *
 * Incomes are exact decimals (`real`); the source computes in floating point,
 * whose rounding at the boundaries is not modelled.
 */
module AmiEstimator {
  import opened Options
  import opened JsNumbers

  /** Annual income at 100% AMI, keyed by household size. */
  const AmiDefinition: map<string, nat> := map[
    "people_1" := 79350,
    "people_2" := 90650,
    "people_3" := 102000,
    "people_4" := 113300,
    "people_5" := 122400,
    "people_6" := 131450
  ]

  /** The three answers the estimator's form collects, as the strings the form holds. */
  datatype FormData = FormData(householdSize: string, householdIncome: string, incomeRate: string)

  /** An estimation: an integer percentage of AMI, or `NaN`. */
  datatype Estimation = Percent(value: int) | NotANumber

  /** The index of the first occurrence of `c` in `s`. */
  function FirstIndex(s: string, c: char): (i: nat)
    requires c in s
    ensures i < |s| && s[i] == c && c !in s[..i]
  {
    if s[0] == c then 0 else 1 + FirstIndex(s[1..], c)
  }

  /** `s.replace(c, '')` with a one-character string pattern. */
  function RemoveFirst(s: string, c: char): (r: string)
    ensures |r| == if c in s then |s| - 1 else |s|
  {
    if |s| == 0 then s
    else if s[0] == c then s[1..]
    else [s[0]] + RemoveFirst(s[1..], c)
  }

  /** Only the first occurrence goes: the text before and after it is kept. */
  lemma {:induction false} RemoveFirstOnlyFirst(s: string, c: char)
    ensures c !in s ==> RemoveFirst(s, c) == s
    ensures c in s ==> RemoveFirst(s, c) == s[..FirstIndex(s, c)] + s[FirstIndex(s, c) + 1..]
  {
    if |s| > 0 && s[0] != c {
      RemoveFirstOnlyFirst(s[1..], c);
      if c in s {
        assert c in s[1..];
        var j := FirstIndex(s[1..], c);
        assert FirstIndex(s, c) == 1 + j;
        assert s[..j + 1] == [s[0]] + s[1..][..j];
        assert s[j + 2..] == s[1..][j + 1..];
      } else {
        assert s == [s[0]] + s[1..];
      }
    }
  }

  predicate IsCurrencyMark(c: char) {
    c == '$' || c == ','
  }

  /** `s.replace(/[$,]/g, '')`: every dollar sign and comma removed, the rest kept in order. */
  function StripCurrency(s: string): (r: string)
    ensures |r| <= |s|
  {
    if |s| == 0 then s
    else if IsCurrencyMark(s[0]) then StripCurrency(s[1..])
    else [s[0]] + StripCurrency(s[1..])
  }

  /** Stripping distributes over concatenation, so it acts on each character alone. */
  lemma {:induction false} StripCurrencyAppend(a: string, b: string)
    ensures StripCurrency(a + b) == StripCurrency(a) + StripCurrency(b)
  {
    if |a| > 0 {
      assert (a + b)[1..] == a[1..] + b;
      StripCurrencyAppend(a[1..], b);
    } else {
      assert a + b == b;
    }
  }

  /** Text without dollar signs and commas passes through unchanged. */
  lemma {:induction false} StripCurrencyKeepsPlainText(s: string)
    requires forall i :: 0 <= i < |s| ==> !IsCurrencyMark(s[i])
    ensures StripCurrency(s) == s
  {
    if |s| > 0 {
      StripCurrencyKeepsPlainText(s[1..]);
    }
  }

  /** A leading dollar sign and one thousands comma are dropped and the digits around them joined. */
  lemma StripDollarComma(a: string, b: string)
    requires forall i :: 0 <= i < |a| ==> !IsCurrencyMark(a[i])
    requires forall i :: 0 <= i < |b| ==> !IsCurrencyMark(b[i])
    ensures StripCurrency(['$'] + a + [','] + b) == a + b
  {
    StripCurrencyKeepsPlainText(a);
    StripCurrencyKeepsPlainText(b);
    assert (['$'] + a)[1..] == a;
    assert StripCurrency(['$'] + a) == a;
    assert StripCurrency([',']) == [] by { assert [','][1..] == []; }
    StripCurrencyAppend(['$'] + a, [',']);
    assert StripCurrency(['$'] + a + [',']) == a;
    StripCurrencyAppend(['$'] + a + [','], b);
  }

  /** No dollar sign or comma is left, and every other character of the input is kept. */
  lemma {:induction false} StripCurrencyRemovesMarks(s: string)
    ensures forall c :: c in StripCurrency(s) <==> c in s && !IsCurrencyMark(c)
  {
    if |s| > 0 {
      StripCurrencyRemovesMarks(s[1..]);
      assert s == [s[0]] + s[1..];
    }
  }

  /** The household income as `parseFloat` reads it after stripping; `None` is `NaN`. */
  function ParsedIncome(householdIncome: string): Option<real> {
    ParseFloat(StripCurrency(householdIncome))
  }

  /** The table key for a household size: "people_" and the size without its first '+'. */
  function TableKey(householdSize: string): string {
    "people_" + RemoveFirst(householdSize, '+')
  }

  /** The 100% AMI ceiling for a household size; `None` is the `undefined` of a missing key. */
  function MaxIncome(householdSize: string): (r: Option<nat>)
    ensures r.Some? ==> r.value > 0
    ensures r.Some? <==> TableKey(householdSize) in AmiDefinition
  {
    var key := TableKey(householdSize);
    if key in AmiDefinition then Some(AmiDefinition[key]) else None
  }

  /** The income per year: twelve times a monthly income, any other rate as given. */
  function Annualized(income: Option<real>, incomeRate: string): (r: Option<real>)
    ensures r.Some? <==> income.Some?
    ensures r.Some? ==> r.value == if incomeRate == "Monthly" then income.value * 12.0 else income.value
  {
    match income
    case None => None
    case Some(x) => Some(if incomeRate == "Monthly" then x * 12.0 else x)
  }

  /** `Math.floor(x)`. */
  function Floor(x: real): (r: int)
    ensures r as real <= x < r as real + 1.0
  {
    x.Floor
  }

  /** `Math.ceil(x)`. */
  function Ceil(x: real): (r: int)
    ensures r as real - 1.0 < x <= r as real
  {
    -((-x).Floor)
  }

  lemma MulMonotone(x: real, y: real, c: real)
    requires c > 0.0
    ensures x <= y ==> x * c <= y * c
    ensures x < y ==> x * c < y * c
  {
  }

  lemma MulCancel(x: real, y: real, c: real)
    requires c > 0.0 && x * c < y * c
    ensures x < y
  {
    if x >= y {
      MulMonotone(y, x, c);
    }
  }

  /** `Math.floor(annual / ceiling * 100)`, the percentage of the ceiling, rounded down. */
  function Percentage(annual: real, ceiling: real): int
    requires ceiling > 0.0
  {
    Floor(annual / ceiling * 100.0)
  }

  /** The percentage p is the one with p·ceiling <= 100·annual < (p+1)·ceiling. */
  lemma PercentageBounds(annual: real, ceiling: real)
    requires ceiling > 0.0
    ensures
      var p := Percentage(annual, ceiling) as real;
      p * ceiling <= annual * 100.0 < (p + 1.0) * ceiling
  {
    var scaled := annual / ceiling * 100.0;
    var p := Floor(scaled);
    assert scaled * ceiling == annual * 100.0;
    assert p as real <= scaled < p as real + 1.0;
    MulMonotone(p as real, scaled, ceiling);
    MulMonotone(scaled, p as real + 1.0, ceiling);
    assert scaled * ceiling < (p as real + 1.0) * ceiling;
    assert annual * 100.0 < (p as real + 1.0) * ceiling;
  }

  /**
   * `estimateAmi`: an unparseable income gives 0; a parseable income with no
   * table entry for the household size gives `NaN` (`Number.isNaN(undefined)`
   * is false, so the division by `undefined` goes ahead); otherwise the
   * floor of the annual income as a percentage of the ceiling.
   */
  function EstimateAmi(form: FormData): (r: Estimation)
    ensures ParsedIncome(form.householdIncome).None? ==> r == Percent(0)
    ensures ParsedIncome(form.householdIncome).Some? && MaxIncome(form.householdSize).None? ==>
              r == NotANumber
    ensures ParsedIncome(form.householdIncome).Some? && MaxIncome(form.householdSize).Some? ==>
              r == Percent(Percentage(Annualized(ParsedIncome(form.householdIncome), form.incomeRate).value,
                                      MaxIncome(form.householdSize).value as real))
  {
    var annualized := Annualized(ParsedIncome(form.householdIncome), form.incomeRate);
    var maxIncome := MaxIncome(form.householdSize);
    if annualized.None? then Percent(0)
    else if maxIncome.None? then NotANumber
    else Percent(Percentage(annualized.value, maxIncome.value as real))
  }

  /**
   * `recommendAmi`: a negative estimation gives 0, a non-zero one is rounded up
   * to a multiple of 5, and 0 (or `NaN`, which is falsy too) is returned as is.
   */
  function RecommendAmi(e: Estimation): (r: Estimation)
    ensures e.NotANumber? <==> r.NotANumber?
    ensures e.Percent? && e.value <= 0 ==> r == Percent(0)
    ensures e.Percent? && e.value > 0 ==>
              r.Percent? && r.value % 5 == 0 && e.value <= r.value < e.value + 5
  {
    match e
    case NotANumber => NotANumber
    case Percent(p) =>
      if p < 0 then Percent(0)
      else if p != 0 then
        var q := Ceil(p as real / 5.0);
        assert p as real <= q as real * 5.0 < p as real + 5.0;
        Percent(q * 5)
      else Percent(p)
  }

  /** `isAboveUpperBound`: more than 200% AMI (`NaN` never is). */
  predicate IsAboveUpperBound(e: Estimation) {
    e.Percent? && e.value > 200
  }

  /** The boundary of the classifier: 200 is not above it, 201 is. */
  lemma AboveUpperBoundBoundary(e: Estimation)
    ensures IsAboveUpperBound(e) <==> e.Percent? && e.value >= 201
    ensures !IsAboveUpperBound(Percent(200)) && IsAboveUpperBound(Percent(201))
  {
  }

  /** Multiples of 5 are the fixed points of the recommendation. */
  lemma RecommendFixesMultiplesOfFive(p: int)
    requires p >= 0 && p % 5 == 0
    ensures RecommendAmi(Percent(p)) == Percent(p)
  {
    if p > 0 {
      var r := RecommendAmi(Percent(p)).value;
      assert r % 5 == 0 && p <= r < p + 5;
    }
  }

  /** Recommending twice is recommending once. */
  lemma RecommendIdempotent(e: Estimation)
    ensures RecommendAmi(RecommendAmi(e)) == RecommendAmi(e)
  {
    var r := RecommendAmi(e);
    if r.Percent? {
      RecommendFixesMultiplesOfFive(r.value);
    }
  }

  /** A recommendation shown to the user (the estimation is not above 200) stays within [0, 200]. */
  lemma RecommendationWithinShownRange(e: Estimation)
    requires e.Percent? && !IsAboveUpperBound(e)
    ensures RecommendAmi(e).Percent? && 0 <= RecommendAmi(e).value <= 200
  {
  }

  /** Dividing by a positive number keeps the order. */
  lemma DivMonotone(a: real, b: real, c: real)
    requires c > 0.0 && a <= b
    ensures a / c <= b / c
  {
  }

  lemma FloorMonotone(x: real, y: real)
    requires x <= y
    ensures Floor(x) <= Floor(y)
  {
  }

  /** The rounded-down percentage grows with the income and is never negative for a non-negative one. */
  lemma PercentageMonotone(a: real, b: real, c: real)
    requires c > 0.0 && a <= b
    ensures Percentage(a, c) <= Percentage(b, c)
    ensures a >= 0.0 ==> Percentage(a, c) >= 0
  {
    DivMonotone(a, b, c);
    FloorMonotone(a / c * 100.0, b / c * 100.0);
    if a >= 0.0 {
      DivMonotone(0.0, a, c);
      FloorMonotone(0.0, a / c * 100.0);
    }
  }

  /** For a fixed household size and pay frequency, the estimate grows with the income. */
  lemma EstimateMonotoneInIncome(form: FormData, otherIncome: string)
    requires ParsedIncome(form.householdIncome).Some? && ParsedIncome(otherIncome).Some?
    requires ParsedIncome(form.householdIncome).value <= ParsedIncome(otherIncome).value
    requires MaxIncome(form.householdSize).Some?
    ensures EstimateAmi(form).Percent?
    ensures EstimateAmi(form).value <= EstimateAmi(form.(householdIncome := otherIncome)).value
  {
    var c := MaxIncome(form.householdSize).value as real;
    var a := Annualized(ParsedIncome(form.householdIncome), form.incomeRate).value;
    var b := Annualized(ParsedIncome(otherIncome), form.incomeRate).value;
    assert EstimateAmi(form) == Percent(Percentage(a, c));
    assert EstimateAmi(form.(householdIncome := otherIncome)) == Percent(Percentage(b, c));
    PercentageMonotone(a, b, c);
  }

  /** A non-negative income never gives a negative estimate. */
  lemma EstimateNonNegative(form: FormData)
    requires ParsedIncome(form.householdIncome).Some? && ParsedIncome(form.householdIncome).value >= 0.0
    requires MaxIncome(form.householdSize).Some?
    ensures EstimateAmi(form).Percent? && EstimateAmi(form).value >= 0
  {
    var c := MaxIncome(form.householdSize).value as real;
    var a := Annualized(ParsedIncome(form.householdIncome), form.incomeRate).value;
    assert EstimateAmi(form) == Percent(Percentage(a, c));
    PercentageMonotone(a, a, c);
  }
}
