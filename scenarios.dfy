/** Worked cases of the budget store: which dates `strptime` accepts, and
    what `calculate_summaries` returns for a few small stores. */
module Scenarios {
  import opened Wrappers
  import opened Json
  import opened Dates
  import opened Snapshot
  import opened SnapshotStore
  import opened Aggregator
  import opened SummaryLaws

  // ---- dates -----------------------------------------------------------------

  /** The form's default date is not a date: the year needs four digits. */
  lemma DefaultDateRejected()
    ensures ParseDate("0-0-0") == None
  {
  }

  /** February 2024 has 29 days and February 2023 has 28. */
  lemma FebruaryDays()
    ensures ParseDate("2024-02-30") == None
    ensures ParseDate("2024-02-29") == Some(Date(2024, 2, 29))
    ensures ParseDate("2023-02-29") == None
  {
    assert "2024-02-30"[..4] == "2024" && "2024-02-30"[5..] == "02-30";
    assert "2024-02-29"[..4] == "2024" && "2024-02-29"[5..] == "02-29";
    assert "2023-02-29"[..4] == "2023" && "2023-02-29"[5..] == "02-29";
  }

  /** Month and day may be written with one digit, and the day with a space. */
  lemma ShortSpellings()
    ensures ParseDate("2024-1-5") == Some(Date(2024, 1, 5))
    ensures ParseDate("2024-1- 5") == Some(Date(2024, 1, 5))
    ensures ParseDate("2024-01-5x") == None
  {
    assert "2024-1-5"[..4] == "2024" && "2024-1-5"[5..] == "1-5";
    assert "2024-1- 5"[..4] == "2024" && "2024-1- 5"[5..] == "1- 5";
    assert "2024-01-5x"[..4] == "2024" && "2024-01-5x"[5..] == "01-5x";
  }

  // ---- two weeks of January ---------------------------------------------------

  function Week(date: string, income: real, rent: real, food: real, savings: real): Value {
    Object(map[
      "date" := Text(date),
      "income" := Number(income),
      "expense_details" := Object(map["Rent" := Number(rent), "Food" := Number(food)]),
      "savings" := Number(savings)])
  }

  const WeekA: File := File("weekly_data_2024-01-01_09-00-00.json", Parsed(Week("2024-01-01", 1000.0, 500.0, 300.0, 200.0)))
  const WeekB: File := File("weekly_data_2024-01-08_09-00-00.json", Parsed(Week("2024-01-08", 1200.0, 500.0, 400.0, 300.0)))
  const WeekC: File := File("weekly_data_2024-02-01_09-00-00.json", Parsed(Week("2024-02-01", 900.0, 500.0, 250.0, 150.0)))

  /** The effect of one week's record, read from its date and amounts. */
  lemma WeekEffect(date: string, d: Date, income: real, rent: real, food: real, savings: real)
    requires ParseDate(date) == Some(d)
    ensures EffectOf(Parsed(Week(date, income, rent, food, savings)))
         == Touch(MonthKey(d), income, savings, map["Rent" := rent, "Food" := food])
  {
    var fields := Week(date, income, rent, food, savings).fields;
    var details := map["Rent" := Number(rent), "Food" := Number(food)];
    assert fields["expense_details"] == Object(details);
    var amounts := Amounts(details);
    assert amounts.Some?;
    assert amounts.value == map["Rent" := rent, "Food" := food];
  }

  lemma ParseJanuaryFirst()
    ensures ParseDate("2024-01-01") == Some(Date(2024, 1, 1))
  {
    assert "2024-01-01"[..4] == "2024" && "2024-01-01"[5..] == "01-01";
  }

  lemma ParseJanuaryEighth()
    ensures ParseDate("2024-01-08") == Some(Date(2024, 1, 8))
  {
    assert "2024-01-08"[..4] == "2024" && "2024-01-08"[5..] == "01-08";
  }

  lemma ParseFebruaryFirst()
    ensures ParseDate("2024-02-01") == Some(Date(2024, 2, 1))
  {
    assert "2024-02-01"[..4] == "2024" && "2024-02-01"[5..] == "02-01";
  }

  lemma January()
    ensures forall day | 1 <= day <= 31 :: MonthKey(Date(2024, 1, day)) == "2024-01"
  {
    assert Pad4(2024) == "2024" && Pad2(1) == "01";
  }

  lemma February()
    ensures forall day | 1 <= day <= 29 :: MonthKey(Date(2024, 2, day)) == "2024-02"
  {
    assert Pad4(2024) == "2024" && Pad2(2) == "02";
  }

  const RentFoodA: map<string, real> := map["Rent" := 500.0, "Food" := 300.0]
  const RentFoodB: map<string, real> := map["Rent" := 500.0, "Food" := 400.0]
  const RentFoodC: map<string, real> := map["Rent" := 500.0, "Food" := 250.0]

  lemma EffectOfWeekA()
    ensures EffectOf(WeekA.content) == Touch("2024-01", 1000.0, 200.0, RentFoodA)
  {
    ParseJanuaryFirst();
    January();
    WeekEffect("2024-01-01", Date(2024, 1, 1), 1000.0, 500.0, 300.0, 200.0);
  }

  lemma EffectOfWeekB()
    ensures EffectOf(WeekB.content) == Touch("2024-01", 1200.0, 300.0, RentFoodB)
  {
    ParseJanuaryEighth();
    January();
    WeekEffect("2024-01-08", Date(2024, 1, 8), 1200.0, 500.0, 400.0, 300.0);
  }

  lemma EffectOfWeekC()
    ensures EffectOf(WeekC.content) == Touch("2024-02", 900.0, 150.0, RentFoodC)
  {
    ParseFebruaryFirst();
    February();
    WeekEffect("2024-02-01", Date(2024, 2, 1), 900.0, 500.0, 250.0, 150.0);
  }

  const JanuaryBucket: Summary := Summary(2200.0, map["Rent" := 1000.0, "Food" := 700.0], 500.0)

  /** The fold of the two January effects. */
  lemma TwoJanuaryWeeks(ea: Effect, eb: Effect)
    requires ea == Touch("2024-01", 1000.0, 200.0, RentFoodA)
    requires eb == Touch("2024-01", 1200.0, 300.0, RentFoodB)
    ensures Fold([ea, eb]) == Some(map["2024-01" := JanuaryBucket])
  {
    assert [ea, eb][..1] == [ea] && [ea][..0] == [];
    var m1 := map["2024-01" := Summary(1000.0, RentFoodA, 200.0)];
    AddAmountsNothing(RentFoodA);
    FirstRecordOfMonth(map[], "2024-01", 1000.0, 200.0, RentFoodA);
    assert Fold([ea]) == Some(m1);
    assert Fold([ea, eb]) == Apply(m1, eb);
    JanuaryExpenses();
    assert m1["2024-01" := JanuaryBucket] == map["2024-01" := JanuaryBucket];
  }

  lemma JanuaryExpenses()
    ensures AddAmounts(RentFoodA, RentFoodB) == JanuaryBucket.expenses
  {
    var sum := AddAmounts(RentFoodA, RentFoodB);
    assert sum.Keys == {"Rent", "Food"};
    assert sum["Rent"] == 1000.0 && sum["Food"] == 700.0;
  }

  /** Two records with the effects of weeks A and B, in either order. */
  lemma JanuaryPair(a: File, b: File)
    requires EffectOf(a.content) == Touch("2024-01", 1000.0, 200.0, RentFoodA)
    requires EffectOf(b.content) == Touch("2024-01", 1200.0, 300.0, RentFoodB)
    ensures Aggregate([a, b]) == Some(map["2024-01" := JanuaryBucket])
  {
    var es := Effects([a, b]);
    assert es == [EffectOf(a.content), EffectOf(b.content)];
    TwoJanuaryWeeks(es[0], es[1]);
  }

  lemma JanuaryAggregate()
    ensures Aggregate([WeekA, WeekB]) == Some(map["2024-01" := JanuaryBucket])
  {
    EffectOfWeekA();
    EffectOfWeekB();
    JanuaryPair(WeekA, WeekB);
  }

  /** Two January weeks add up into one bucket, whatever order the directory
      lists them in. */
  lemma JanuaryTotals(fs: seq<File>)
    requires multiset(fs) == multiset{WeekA, WeekB}
    ensures MonthlySummaries(Listing(fs)) == Some(map["2024-01" := JanuaryBucket])
  {
    JanuaryAggregate();
    ListingOrderIrrelevant(fs);
    assert multiset([WeekA, WeekB]) == multiset{WeekA, WeekB};
    PermutationInvariant(fs, [WeekA, WeekB]);
  }

  /** A record of another month leaves the January bucket as it was. */
  lemma FebruaryAfterJanuary(a: File, b: File, c: File)
    requires Aggregate([a, b]) == Some(map["2024-01" := JanuaryBucket])
    requires EffectOf(c.content) == Touch("2024-02", 900.0, 150.0, RentFoodC)
    ensures var r := Aggregate([a, b, c]);
      r.Some? && "2024-01" in r.value && r.value["2024-01"] == JanuaryBucket
  {
    var m := map["2024-01" := JanuaryBucket];
    OtherMonthUntouched([a, b], c, "2024-01", m);
    assert [a, b] + [c] == [a, b, c];
  }

  /** A February week leaves the January bucket as it was. */
  lemma FebruaryIsSeparate()
    ensures var r := Aggregate([WeekA, WeekB, WeekC]);
      r.Some? && "2024-01" in r.value && r.value["2024-01"] == JanuaryBucket
  {
    JanuaryAggregate();
    EffectOfWeekC();
    FebruaryAfterJanuary(WeekA, WeekB, WeekC);
  }

  /** A week saved with the form's default date makes every later summary
      empty, however many good weeks the store holds. */
  lemma DefaultDatePoisonsStore(files: seq<File>, i: int, form: FormInput)
    requires 0 <= i < |files|
    requires form.date == "0-0-0"
    requires files[i].content == Parsed(SnapshotDocument(Derive(form)))
    ensures Aggregate(files) == None
  {
    DefaultDateRejected();
    BadDateAborts(files, i, SnapshotDocument(Derive(form)).fields);
  }
}
