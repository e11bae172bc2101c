/**
 * Worked figures for the AMI estimator: the form's default answers
 * (four people, "$5,000.00" a month) and the table entries they touch,
 * carried through the estimate and the recommendation.
 */
module AmiExamples {
  import opened Options
  import opened JsNumbers
  import opened AmiEstimator

  /** "6+" looks up the entry for six people: only the '+' is dropped. */
  lemma SixPlusLooksUpSix()
    ensures TableKey("6+") == "people_6"
    ensures MaxIncome("6+") == Some(131450)
  {
    assert RemoveFirst("6+", '+') == "6";
  }

  lemma DefaultIncomeStrips()
    ensures StripCurrency("$5,000.00") == "5000.00"
  {
    var thousands := "5";
    var rest := "000.00";
    assert "$5,000.00" == ['$'] + thousands + [','] + rest;
    StripDollarComma(thousands, rest);
    assert thousands + rest == "5000.00";
  }

  lemma DefaultIncomeReads()
    ensures ParseFloat("5000.00") == Some(5000.0)
  {
    var u := "5000.00";
    StartsWithDigit(u);
    assert DigitRun(u) == 4;
    assert u[..4] == "5000";
    assert DigitsValue("5000") == 5000 by {
      assert "5000"[..3] == "500" && "500"[..2] == "50" && "50"[..1] == "5" && "5"[..0] == "";
    }
    assert u[5..] == "00";
    assert DigitRun(u[5..]) == 2;
    assert u[5..][..2] == "00";
    assert FractionValue("00") == 0.0;
  }

  lemma DefaultIncomeParses()
    ensures ParsedIncome("$5,000.00") == Some(5000.0)
  {
    DefaultIncomeStrips();
    DefaultIncomeReads();
  }

  lemma FourPeopleCeiling()
    ensures MaxIncome("4") == Some(113300)
  {
    assert TableKey("4") == "people_4" by {
      assert RemoveFirst("4", '+') == "4";
    }
  }

  lemma SixtyThousandOfCeiling()
    ensures Percentage(60000.0, 113300.0) == 52
  {
    var p := Percentage(60000.0, 113300.0);
    PercentageBounds(60000.0, 113300.0);
    assert p as real * 113300.0 <= 6000000.0 < (p as real + 1.0) * 113300.0;
  }

  /** A parsed income with a table entry is estimated against that entry. */
  lemma EstimateOfParsed(form: FormData, income: real, ceiling: nat)
    requires ParsedIncome(form.householdIncome) == Some(income)
    requires MaxIncome(form.householdSize) == Some(ceiling)
    ensures EstimateAmi(form) == Percent(Percentage(Annualized(Some(income), form.incomeRate).value, ceiling as real))
  {
  }

  /** A monthly income counts twelve times over. */
  lemma MonthlyAnnualized(income: real, rate: string)
    requires rate == "Monthly"
    ensures Annualized(Some(income), rate) == Some(income * 12.0)
  {
  }

  /** Four people earning $5,000.00 a month, read by the estimator, are at 52% AMI. */
  lemma FourPeopleAtFiveThousandMonthly(form: FormData)
    requires form.incomeRate == "Monthly"
    requires ParsedIncome(form.householdIncome) == Some(5000.0)
    requires MaxIncome(form.householdSize) == Some(113300)
    ensures EstimateAmi(form) == Percent(52)
  {
    EstimateOfParsed(form, 5000.0, 113300);
    MonthlyAnnualized(5000.0, form.incomeRate);
    assert 5000.0 * 12.0 == 60000.0;
    SixtyThousandOfCeiling();
  }

  /** The form's default answers: four people earning $5,000.00 a month are at 52% AMI. */
  lemma DefaultFormEstimate(form: FormData)
    requires form == FormData("4", "$5,000.00", "Monthly")
    ensures EstimateAmi(form) == Percent(52)
  {
    DefaultIncomeParses();
    FourPeopleCeiling();
    FourPeopleAtFiveThousandMonthly(form);
  }

  /** ... and are recommended the 55% band. */
  lemma DefaultFormRecommendation(form: FormData)
    requires form.householdSize == "4" && form.householdIncome == "$5,000.00"
    requires form.incomeRate == "Monthly"
    ensures RecommendAmi(EstimateAmi(form)) == Percent(55)
  {
    DefaultIncomeParses();
    FourPeopleCeiling();
    FourPeopleAtFiveThousandMonthly(form);
    FiftyTwoRoundsUp();
  }

  lemma FiftyTwoRoundsUp()
    ensures RecommendAmi(Percent(52)) == Percent(55)
  {
    assert Ceil(52.0 / 5.0) == 11;
  }
}
