/** `calculate_summaries` of PersonalBudget.py: every stored snapshot, in
    sorted file-name order, is folded into per-month buckets of income,
    savings and per-category expenses.

    The specification is `Aggregate`, a fold of `Apply` over the record
    effects; `CalculateSummaries` is the imperative loop of the source,
    proved to compute it. */
module Aggregator {
  import opened Wrappers
  import opened Json
  import opened Dates
  import opened Snapshot
  import opened SnapshotStore

  /** One month's bucket, `{"income": ..., "expenses": {...}, "savings": ...}`. */
  datatype Summary = Summary(income: real, expenses: map<string, real>, savings: real)

  type Months = map<string, Summary>

  /** The bucket created on the first record of a month. */
  const NewBucket: Summary := Summary(0.0, map[], 0.0)

  function Bucket(m: Months, k: string): Summary {
    if k in m then m[k] else NewBucket
  }

  /** What one record does to the result, following the order in which the
      loop body reads its fields:
      - `Abort`: an exception that the inner `except` does not catch, so the
        whole call returns `{}`;
      - `Skip`: `JSONDecodeError` or a `KeyError` before the month is known;
      - `Touch`: the record reached its month bucket and adds these amounts
        (a later `KeyError` only cuts the list short). */
  datatype Effect =
    | Abort
    | Skip
    | Touch(month: string, income: real, savings: real, amounts: map<string, real>)

  /** The amounts of an `expense_details` object, or `None` when one of them
      cannot be added to a number. */
  function Amounts(details: map<string, Value>): (r: Option<map<string, real>>)
    ensures r.Some? <==> forall c | c in details :: AsAmount(details[c]).Some?
    ensures r.Some? ==> r.value.Keys == details.Keys
    ensures r.Some? ==> forall c | c in details :: r.value[c] == AsAmount(details[c]).value
  {
    if forall c | c in details :: AsAmount(details[c]).Some? then
      Some(map c | c in details :: AsAmount(details[c]).value)
    else None
  }

  /** Amounts written as JSON numbers read back as themselves. */
  lemma AmountsOfNumbers(d: map<string, real>)
    ensures Amounts(map c | c in d :: Number(d[c])) == Some(d)
  {
    var details := map c | c in d :: Number(d[c]);
    forall c | c in details ensures AsAmount(details[c]) == Some(d[c]) {
    }
    var r := Amounts(details);
    assert r.Some?;
    assert r.value.Keys == d.Keys;
    assert r.value == d;
  }

  /** The effect of one file of the store. */
  function EffectOf(content: Content): Effect
  {
    match content
    case ReadFailure => Abort
    case Malformed => Skip
    case Parsed(doc) =>
      if !doc.Object? then Abort                           // data["date"] on a non-dict: TypeError
      else if "date" !in doc.fields then Skip              // KeyError
      else if !doc.fields["date"].Text? then Abort         // strptime of a non-str: TypeError
      else
        match ParseDate(doc.fields["date"].s)
        case None => Abort                                 // strptime: ValueError
        case Some(date) => RecordEffect(MonthKey(date), doc.fields)
  }

  /** The amounts of the record's `expense_details`, an absent one being `{}`;
      `None` when it is not an object or holds an amount that is neither a
      number nor a boolean. */
  function DetailAmounts(fields: map<string, Value>): (r: Option<map<string, real>>)
    ensures r.None? <==>
              && "expense_details" in fields
              && (|| !fields["expense_details"].Object?
                  || exists c | c in fields["expense_details"].fields ::
                       AsAmount(fields["expense_details"].fields[c]).None?)
    ensures r.Some? ==>
              r.value.Keys == if "expense_details" in fields then fields["expense_details"].fields.Keys else {}
    ensures r.Some? && "expense_details" in fields ==>
              forall c | c in r.value :: r.value[c] == AsAmount(fields["expense_details"].fields[c]).value
  {
    if "expense_details" !in fields then Some(map[])
    else if !fields["expense_details"].Object? then None        // .items() on a non-dict: AttributeError
    else Amounts(fields["expense_details"].fields)
  }

  /** The part of the record read after its month bucket exists. */
  function RecordEffect(k: string, fields: map<string, Value>): (e: Effect)
    ensures e.Abort? || (e.Touch? && e.month == k)
  {
    if "income" !in fields then Touch(k, 0.0, 0.0, map[])
    else if AsAmount(fields["income"]).None? then Abort
    else
      var income := AsAmount(fields["income"]).value;
      if "savings" !in fields then Touch(k, income, 0.0, map[])
      else if AsAmount(fields["savings"]).None? then Abort
      else
        var savings := AsAmount(fields["savings"]).value;
        match DetailAmounts(fields)
        case None => Abort
        case Some(amounts) => Touch(k, income, savings, amounts)
  }

  /** Two expense maps added category by category; a category present in
      either one is present in the result. */
  function AddAmounts(e: map<string, real>, a: map<string, real>): (r: map<string, real>)
    ensures r.Keys == e.Keys + a.Keys
    ensures forall c | c in r :: r[c] == Get0(e, c) + Get0(a, c)
  {
    map c | c in e.Keys + a.Keys :: Get0(e, c) + Get0(a, c)
  }

  /** Adding a record's effect to the month map; `None` is the `{}` result. */
  function Apply(m: Months, e: Effect): Option<Months>
  {
    match e
    case Abort => None
    case Skip => Some(m)
    case Touch(k, income, savings, amounts) =>
      var b := Bucket(m, k);
      Some(m[k := Summary(b.income + income, AddAmounts(b.expenses, amounts), b.savings + savings)])
  }

  function Then(r: Option<Months>, e: Effect): Option<Months> {
    match r
    case None => None
    case Some(m) => Apply(m, e)
  }

  /** The effects of the files, in order. */
  function Effects(files: seq<File>): (es: seq<Effect>)
    ensures |es| == |files|
    ensures forall i | 0 <= i < |files| :: es[i] == EffectOf(files[i].content)
  {
    seq(|files|, i requires 0 <= i < |files| => EffectOf(files[i].content))
  }

  /** Effects applied in order, starting from the empty map. */
  function Fold(es: seq<Effect>): Option<Months>
  {
    if es == [] then Some(map[])
    else Then(Fold(es[..|es| - 1]), es[|es| - 1])
  }

  /** The records of `files`, in that order, folded from the empty map. */
  function Aggregate(files: seq<File>): Option<Months>
  {
    Fold(Effects(files))
  }

  /** Adding one file at the end folds its effect into the result so far. */
  lemma AggregateSnoc(files: seq<File>, f: File)
    ensures Aggregate(files + [f]) == Then(Aggregate(files), EffectOf(f.content))
  {
    var es := Effects(files + [f]);
    assert es[..|files|] == Effects(files);
  }

  /** `calculate_summaries`: `Some(m)` is `{"monthly_data": m}`, `None` is `{}`. */
  function MonthlySummaries(dir: Directory): Option<Months>
  {
    match dir
    case Unlistable => None
    case Listing(fs) => Aggregate(SortByName(fs))
  }

  // ---- the loop of the source ---------------------------------------------

  /** The inner loop over `expense_details.items()`, adding each amount into the
      bucket's category map (lines 67-70).  `None` is the `TypeError` of an
      amount that is neither a number nor a boolean. */
  method AccumulateExpenses(expenses: map<string, real>, details: map<string, Value>)
    returns (r: Option<map<string, real>>)
    ensures r == match Amounts(details)
                 case None => None
                 case Some(a) => Some(AddAmounts(expenses, a))
  {
    var acc := expenses;
    var todo := details.Keys;
    ghost var done: map<string, real> := map[];
    while todo != {}
      invariant todo <= details.Keys
      invariant done.Keys == details.Keys - todo
      invariant forall c | c in done :: AsAmount(details[c]) == Some(done[c])
      invariant acc == AddAmounts(expenses, done)
      decreases todo
    {
      var c :| c in todo;
      var amount := AsAmount(details[c]);
      if amount.None? {
        return None;
      }
      ghost var before := acc;
      if c !in acc {
        acc := acc[c := 0.0];
      }
      acc := acc[c := acc[c] + amount.value];
      assert acc == before[c := Get0(before, c) + amount.value];
      AddAmountsExtend(expenses, done, c, amount.value);
      done := done[c := amount.value];
      todo := todo - {c};
    }
    assert done == Amounts(details).value;
    return Some(acc);
  }

  /** One more category added to the right-hand map adds its amount onto
      what the left-hand one already holds. */
  lemma AddAmountsExtend(e: map<string, real>, a: map<string, real>, c: string, x: real)
    requires c !in a
    ensures AddAmounts(e, a[c := x]) == AddAmounts(e, a)[c := Get0(AddAmounts(e, a), c) + x]
  {
    var lhs, rhs := AddAmounts(e, a[c := x]), AddAmounts(e, a)[c := Get0(AddAmounts(e, a), c) + x];
    assert lhs.Keys == rhs.Keys;
    forall k | k in lhs ensures lhs[k] == rhs[k] {
      if k != c {
        assert Get0(a[c := x], k) == Get0(a, k);
      }
    }
  }

  /** The body of the loop over files (lines 57-70) on one record; the early
      returns with a value are the `KeyError`s caught at line 71. */
  method AddRecord(monthly: Months, content: Content) returns (r: Option<Months>)
    ensures r == Apply(monthly, EffectOf(content))
  {
    match content
    case ReadFailure =>
      return None;
    case Malformed =>
      return Some(monthly);
    case Parsed(data) =>
      if !data.Object? {
        return None;
      }
      var fields := data.fields;
      if "date" !in fields {
        return Some(monthly);
      }
      if !fields["date"].Text? {
        return None;
      }
      var date := ParseDate(fields["date"].s);
      if date.None? {
        return None;
      }
      r := AddToMonth(monthly, MonthKey(date.value), fields);
  }

  /** Lines 60-70 once the month key is known: create the bucket, then add
      income, savings and each expense amount. */
  method AddToMonth(monthly: Months, monthKey: string, fields: map<string, Value>) returns (r: Option<Months>)
    ensures r == Apply(monthly, RecordEffect(monthKey, fields))
  {
    var m := monthly;
    if monthKey !in m {
      m := m[monthKey := Summary(0.0, map[], 0.0)];
    }
    r := AddFields(m, monthKey, fields);
    NewBucketIsNeutral(monthly, monthKey, RecordEffect(monthKey, fields));
  }

  /** Creating the empty bucket first does not change what a record adds. */
  lemma NewBucketIsNeutral(m: Months, k: string, e: Effect)
    requires e.Abort? || (e.Touch? && e.month == k)
    ensures Apply(if k in m then m else m[k := NewBucket], e) == Apply(m, e)
  {
    if e.Touch? && k !in m {
      var n := m[k := NewBucket];
      var x := Summary(0.0 + e.income, AddAmounts(map[], e.amounts), 0.0 + e.savings);
      assert Bucket(n, k) == NewBucket == Bucket(m, k);
      assert Apply(n, e) == Some(n[k := x]);
      assert Apply(m, e) == Some(m[k := x]);
      assert n[k := x] == m[k := x];
    }
  }

  /** Lines 64-70: income, then savings, then the expense amounts, each read
      from the record and added into the existing bucket. */
  method AddFields(m: Months, monthKey: string, fields: map<string, Value>) returns (r: Option<Months>)
    requires monthKey in m
    ensures r == Apply(m, RecordEffect(monthKey, fields))
  {
    var b := m[monthKey];
    if "income" !in fields {
      assert AddAmounts(b.expenses, map[]) == b.expenses;
      assert m == m[monthKey := Summary(b.income + 0.0, AddAmounts(b.expenses, map[]), b.savings + 0.0)];
      return Some(m);
    }
    var income := AsAmount(fields["income"]);
    if income.None? {
      return None;
    }
    var m1 := m[monthKey := b.(income := b.income + income.value)];
    if "savings" !in fields {
      assert AddAmounts(b.expenses, map[]) == b.expenses;
      return Some(m1);
    }
    var savings := AsAmount(fields["savings"]);
    if savings.None? {
      return None;
    }
    var m2 := m1[monthKey := m1[monthKey].(savings := m1[monthKey].savings + savings.value)];
    assert m2 == m[monthKey := Summary(b.income + income.value, b.expenses, b.savings + savings.value)];
    r := AddDetails(m2, monthKey, fields);
    if DetailAmounts(fields).Some? {
      var a := DetailAmounts(fields).value;
      assert RecordEffect(monthKey, fields) == Touch(monthKey, income.value, savings.value, a);
      assert m2[monthKey := m2[monthKey].(expenses := AddAmounts(b.expenses, a))]
          == m[monthKey := Summary(b.income + income.value, AddAmounts(b.expenses, a), b.savings + savings.value)];
    }
  }

  /** Lines 67-70: the amounts of `data.get("expense_details", {})` added into
      the bucket's category map. */
  method AddDetails(m: Months, monthKey: string, fields: map<string, Value>) returns (r: Option<Months>)
    requires monthKey in m
    ensures r == match DetailAmounts(fields)
                 case None => None
                 case Some(a) => Some(m[monthKey := m[monthKey].(expenses := AddAmounts(m[monthKey].expenses, a))])
  {
    var details := if "expense_details" in fields then fields["expense_details"] else EmptyObject;
    if !details.Object? {
      return None;
    }
    var expenses := AccumulateExpenses(m[monthKey].expenses, details.fields);
    if expenses.None? {
      return None;
    }
    return Some(m[monthKey := m[monthKey].(expenses := expenses.value)]);
  }

  /** Once a prefix of the files has aborted, the whole call has. */
  lemma {:induction false} AbortIsFinal(files: seq<File>, n: nat)
    requires n <= |files|
    requires Aggregate(files[..n]) == None
    ensures Aggregate(files) == None
    decreases |files| - n
  {
    if n < |files| {
      assert files[..n + 1] == files[..n] + [files[n]];
      AggregateSnoc(files[..n], files[n]);
      AbortIsFinal(files, n + 1);
    } else {
      assert files[..n] == files;
    }
  }

  /** `calculate_summaries` (lines 50-77). */
  method CalculateSummaries(dir: Directory) returns (r: Option<Months>)
    ensures r == MonthlySummaries(dir)
  {
    if dir.Unlistable? {
      return None;
    }
    var files := SortByName(dir.files);
    var monthly: Months := map[];
    for i := 0 to |files|
      invariant Aggregate(files[..i]) == Some(monthly)
    {
      assert files[..i + 1] == files[..i] + [files[i]];
      AggregateSnoc(files[..i], files[i]);
      var next := AddRecord(monthly, files[i].content);
      if next.None? {
        AbortIsFinal(files, i + 1);
        return None;
      }
      monthly := next.value;
    }
    assert files[..|files|] == files;
    return Some(monthly);
  }
}
