/** The weekly snapshot the "Update" action derives from the form
    (PersonalBudget.py, update_or_reset_finances) and the JSON object
    `save_weekly_data` writes for it. */
module Snapshot {
  import opened Wrappers
  import opened Json

  /** The five fixed expense categories, in the order the form lists them. */
  const Categories: seq<string> := ["Rent", "Food", "Transport", "Leisure", "Extra"]
  const CategorySet: set<string> := {"Rent", "Food", "Transport", "Leisure", "Extra"}

  /** A missing entry of an amount map counts as zero. */
  function Get0(m: map<string, real>, c: string): real {
    if c in m then m[c] else 0.0
  }

  /** The sum of `m`'s amounts over the listed keys. */
  function SumOver(keys: seq<string>, m: map<string, real>): real
  {
    if keys == [] then 0.0 else Get0(m, keys[0]) + SumOver(keys[1..], m)
  }

  lemma {:induction false} SumOverEmpty(keys: seq<string>)
    ensures SumOver(keys, map[]) == 0.0
  {
    if keys != [] {
      SumOverEmpty(keys[1..]);
    }
  }

  /** Sums over a fixed key list are additive in pointwise sums of maps. */
  lemma {:induction false} SumOverPointwise(keys: seq<string>, a: map<string, real>, b: map<string, real>, s: map<string, real>)
    requires forall c | c in keys :: Get0(s, c) == Get0(a, c) + Get0(b, c)
    ensures SumOver(keys, s) == SumOver(keys, a) + SumOver(keys, b)
  {
    if keys != [] {
      assert keys[0] in keys;
      forall c | c in keys[1..] ensures Get0(s, c) == Get0(a, c) + Get0(b, c) {
        assert c in keys;
      }
      SumOverPointwise(keys[1..], a, b, s);
    }
  }

  /** Over the five categories the sum is the five amounts added in form order. */
  lemma SumOverCategories(m: map<string, real>)
    ensures SumOver(Categories, m)
      == Get0(m, "Rent") + Get0(m, "Food") + Get0(m, "Transport") + Get0(m, "Leisure") + Get0(m, "Extra")
  {
    var tail := ["Food", "Transport", "Leisure", "Extra"];
    assert Categories[1..] == tail;
    assert tail[1..] == ["Transport", "Leisure", "Extra"];
    assert tail[1..][1..] == ["Leisure", "Extra"];
    assert tail[1..][1..][1..] == ["Extra"];
    assert SumOver(["Extra"], m) == Get0(m, "Extra");
    assert SumOver(["Leisure", "Extra"], m) == Get0(m, "Leisure") + Get0(m, "Extra");
    assert SumOver(["Transport", "Leisure", "Extra"], m)
      == Get0(m, "Transport") + Get0(m, "Leisure") + Get0(m, "Extra");
    assert SumOver(tail, m) == Get0(m, "Food") + Get0(m, "Transport") + Get0(m, "Leisure") + Get0(m, "Extra");
  }

  /** The form's inputs; a number field left empty arrives as `None`. */
  datatype FormInput = FormInput(
    date: string,
    salary: Option<real>, extra: Option<real>,
    rent: Option<real>, food: Option<real>, transport: Option<real>,
    leisure: Option<real>, extraExpense: Option<real>)

  /** One saved week: the keys of the JSON object `save_weekly_data` writes. */
  datatype WeeklySnapshot = WeeklySnapshot(
    date: string, income: real, expenses: real, savings: real,
    details: map<string, real>)

  /** Python's `x or 0` on a number field: `None` becomes 0. */
  function OrZero(x: Option<real>): (r: real)
    ensures x.Some? ==> r == x.value
    ensures x.None? ==> r == 0.0
  {
    match x
    case None => 0.0
    case Some(v) => v
  }

  /** The financial calculations of the "Update" action. */
  function Derive(f: FormInput): (s: WeeklySnapshot)
    ensures s.date == f.date
    ensures s.income == OrZero(f.salary) + OrZero(f.extra)
    ensures s.details.Keys == CategorySet
    ensures s.details["Rent"] == OrZero(f.rent) && s.details["Food"] == OrZero(f.food)
    ensures s.details["Transport"] == OrZero(f.transport) && s.details["Leisure"] == OrZero(f.leisure)
    ensures s.details["Extra"] == OrZero(f.extraExpense)
    ensures s.expenses == s.details["Rent"] + s.details["Food"] + s.details["Transport"]
                          + s.details["Leisure"] + s.details["Extra"]
    ensures s.income == s.savings + s.expenses
  {
    var income := OrZero(f.salary) + OrZero(f.extra);
    var details := map[
      "Rent" := OrZero(f.rent),
      "Food" := OrZero(f.food),
      "Transport" := OrZero(f.transport),
      "Leisure" := OrZero(f.leisure),
      "Extra" := OrZero(f.extraExpense)];
    var total := SumOver(Categories, details);
    SumOverCategories(details);
    WeeklySnapshot(f.date, income, total, income - total, details)
  }

  /** A derived snapshot's total is the sum of its category amounts, and its
      savings are what the income leaves after them. */
  lemma DerivedSnapshotBalanced(f: FormInput)
    ensures Derive(f).expenses == SumOver(Categories, Derive(f).details)
    ensures Derive(f).details.Keys == CategorySet
    ensures Derive(f).savings == Derive(f).income - SumOver(Categories, Derive(f).details)
  {
  }

  /** The keys of the JSON object `save_weekly_data` writes. */
  const DocumentKeys: set<string> := {"date", "income", "expenses", "savings", "expense_details"}

  /** The JSON object written for a snapshot: it has exactly the document
      keys and reads back as the snapshot it was written from. */
  function SnapshotDocument(s: WeeklySnapshot): (v: Value)
    ensures v.Object? && v.fields.Keys == DocumentKeys
    ensures ReadSnapshot(v) == Some(s)
  {
    var v := Object(map[
      "date" := Text(s.date),
      "income" := Number(s.income),
      "expenses" := Number(s.expenses),
      "savings" := Number(s.savings),
      "expense_details" := Object(map c | c in s.details :: Number(s.details[c]))]);
    assert DetailNumbers(v.fields["expense_details"].fields) == s.details;
    v
  }

  /** A stored document read as a snapshot: an object with exactly the
      document keys, a text date, and numbers everywhere else; `None` for
      anything else. */
  function ReadSnapshot(v: Value): Option<WeeklySnapshot>
  {
    if && v.Object? && v.fields.Keys == DocumentKeys
       && v.fields["date"].Text? && v.fields["income"].Number?
       && v.fields["expenses"].Number? && v.fields["savings"].Number?
       && v.fields["expense_details"].Object?
       && (forall c | c in v.fields["expense_details"].fields :: v.fields["expense_details"].fields[c].Number?)
    then
      Some(WeeklySnapshot(v.fields["date"].s, v.fields["income"].x, v.fields["expenses"].x,
                          v.fields["savings"].x, DetailNumbers(v.fields["expense_details"].fields)))
    else None
  }

  /** Every document that reads as a snapshot is the one written for it:
      writing and reading are inverse. */
  lemma ReadThenWrite(v: Value)
    requires ReadSnapshot(v).Some?
    ensures SnapshotDocument(ReadSnapshot(v).value) == v
  {
    var s := ReadSnapshot(v).value;
    var d := v.fields["expense_details"].fields;
    var w := SnapshotDocument(s);
    assert (map c | c in s.details :: Number(s.details[c])) == d;
    assert w.fields.Keys == v.fields.Keys;
    assert w.fields == v.fields;
  }

  /** The amounts a document's `expense_details` holds, read as numbers. */
  function DetailNumbers(d: map<string, Value>): map<string, real>
  {
    map c | c in d && d[c].Number? :: d[c].x
  }

  /** In the document the update path writes, `expense_details` holds a
      number for each of the five categories, `expenses` is their sum and
      `savings` is `income` minus it. */
  lemma SavedDocumentBalanced(f: FormInput)
    ensures var v := SnapshotDocument(Derive(f));
      var d := v.fields["expense_details"].fields;
      && d.Keys == CategorySet
      && (forall c | c in d :: d[c].Number?)
      && v.fields["expenses"] == Number(SumOver(Categories, DetailNumbers(d)))
      && v.fields["savings"] == Number(v.fields["income"].x - v.fields["expenses"].x)
  {
    var s := Derive(f);
    var d := SnapshotDocument(s).fields["expense_details"].fields;
    assert DetailNumbers(d) == s.details;
    DerivedSnapshotBalanced(f);
  }
}
