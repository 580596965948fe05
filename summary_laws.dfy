/** Properties of the monthly aggregation: what each bucket holds, which
    records abort or are skipped, and that the order of the files does not
    matter. */
module SummaryLaws {
  import opened Wrappers
  import opened Json
  import opened Dates
  import opened Snapshot
  import opened SnapshotStore
  import opened Aggregator

  // ---- folding one more file ----------------------------------------------

  lemma AddAmountsNothing(e: map<string, real>)
    ensures AddAmounts(e, map[]) == e && AddAmounts(map[], e) == e
  {
  }

  lemma AddAmountsCommute(e: map<string, real>, a1: map<string, real>, a2: map<string, real>)
    ensures AddAmounts(AddAmounts(e, a1), a2) == AddAmounts(AddAmounts(e, a2), a1)
  {
    var x, y := AddAmounts(AddAmounts(e, a1), a2), AddAmounts(AddAmounts(e, a2), a1);
    assert x.Keys == y.Keys;
    forall c | c in x ensures x[c] == y[c] {
    }
  }

  /** The first record of a month creates its bucket from zero and no
      categories (line 62). */
  lemma FirstRecordOfMonth(m: Months, k: string, income: real, savings: real, amounts: map<string, real>)
    requires k !in m
    ensures Apply(m, Touch(k, income, savings, amounts)) == Some(m[k := Summary(income, amounts, savings)])
  {
    AddAmountsNothing(amounts);
  }

  /** A bucket after one record's amounts are added into it. */
  function Added(b: Summary, e: Effect): (r: Summary)
    requires e.Touch?
    ensures r.income == b.income + e.income && r.savings == b.savings + e.savings
    ensures r.expenses == AddAmounts(b.expenses, e.amounts)
  {
    Summary(b.income + e.income, AddAmounts(b.expenses, e.amounts), b.savings + e.savings)
  }

  lemma ApplyTouch(m: Months, e: Effect)
    requires e.Touch?
    ensures Apply(m, e) == Some(m[e.month := Added(Bucket(m, e.month), e)])
  {
  }

  /** Two additions into one bucket, in either order, give the same bucket. */
  lemma AddedCommutes(b: Summary, e1: Effect, e2: Effect)
    requires e1.Touch? && e2.Touch?
    ensures Added(Added(b, e1), e2) == Added(Added(b, e2), e1)
  {
    AddAmountsCommute(b.expenses, e1.amounts, e2.amounts);
  }

  lemma SameMonthCommutes(m: Months, e1: Effect, e2: Effect)
    requires e1.Touch? && e2.Touch? && e1.month == e2.month
    ensures Then(Apply(m, e1), e2) == Then(Apply(m, e2), e1)
  {
    var k := e1.month;
    var x1, x2 := Added(Bucket(m, k), e1), Added(Bucket(m, k), e2);
    ApplyTouch(m, e1);
    ApplyTouch(m, e2);
    ApplyTouch(m[k := x1], e2);
    ApplyTouch(m[k := x2], e1);
    assert Bucket(m[k := x1], k) == x1 && Bucket(m[k := x2], k) == x2;
    AddedCommutes(Bucket(m, k), e1, e2);
    var y := Added(x1, e2);
    assert m[k := x1][k := y] == m[k := x2][k := y];
  }

  lemma OtherMonthsCommute(m: Months, e1: Effect, e2: Effect)
    requires e1.Touch? && e2.Touch? && e1.month != e2.month
    ensures Then(Apply(m, e1), e2) == Then(Apply(m, e2), e1)
  {
    var k1, k2 := e1.month, e2.month;
    var b1, b2 := Bucket(m, k1), Bucket(m, k2);
    var x1 := Summary(b1.income + e1.income, AddAmounts(b1.expenses, e1.amounts), b1.savings + e1.savings);
    var x2 := Summary(b2.income + e2.income, AddAmounts(b2.expenses, e2.amounts), b2.savings + e2.savings);
    assert Bucket(m[k1 := x1], k2) == b2;
    assert Bucket(m[k2 := x2], k1) == b1;
    assert m[k1 := x1][k2 := x2] == m[k2 := x2][k1 := x1];
  }

  /** Two records can be added in either order: only additions happen. */
  lemma ThenCommutes(r: Option<Months>, e1: Effect, e2: Effect)
    ensures Then(Then(r, e1), e2) == Then(Then(r, e2), e1)
  {
    if r.Some? && e1.Touch? && e2.Touch? {
      if e1.month == e2.month {
        SameMonthCommutes(r.value, e1, e2);
      } else {
        OtherMonthsCommute(r.value, e1, e2);
      }
    }
  }

  /** Any one record may be moved to the end of the sequence. */
  lemma {:induction false} MoveToEnd(p: seq<File>, a: File, q: seq<File>)
    ensures Aggregate(p + [a] + q) == Aggregate(p + q + [a])
    decreases |q|
  {
    if q == [] {
      assert p + [a] + q == p + q + [a];
    } else {
      var q', b := q[..|q| - 1], q[|q| - 1];
      assert p + [a] + q == (p + [a] + q') + [b];
      assert p + q + [a] == (p + q') + [b] + [a];
      assert p + q == (p + q') + [b];
      AggregateSnoc(p + [a] + q', b);
      MoveToEnd(p, a, q');
      AggregateSnoc(p + q', a);
      ThenCommutes(Aggregate(p + q'), EffectOf(a.content), EffectOf(b.content));
      AggregateSnoc(p + q', b);
      AggregateSnoc(p + q, a);
    }
  }

  /** Taking one element out of the middle of a list removes one
      occurrence of it from the list's multiset. */
  lemma SplitMultiset<T>(p: seq<T>, a: T, q: seq<T>)
    ensures multiset(p + [a] + q) == multiset(p + q) + multiset{a}
  {
    assert p + [a] + q == (p + [a]) + q;
    assert multiset(p + q) == multiset(p) + multiset(q);
  }

  /** Dropping the last element removes one occurrence of it. */
  lemma DropLast<T>(xs: seq<T>)
    requires xs != []
    ensures multiset(xs[..|xs| - 1]) == multiset(xs) - multiset{xs[|xs| - 1]}
  {
    assert xs == xs[..|xs| - 1] + [xs[|xs| - 1]];
  }

  /** An element of a list splits it around one of its occurrences. */
  lemma FindOccurrence<T>(ys: seq<T>, a: T) returns (p: seq<T>, q: seq<T>)
    requires a in multiset(ys)
    ensures ys == p + [a] + q
  {
    var i :| 0 <= i < |ys| && ys[i] == a;
    p, q := ys[..i], ys[i + 1..];
    assert ys == p + [a] + q;
  }

  /** The last of `xs` taken out of its place in the permutation `ys`. */
  lemma TakeOut<T>(xs: seq<T>, ys: seq<T>) returns (p: seq<T>, q: seq<T>)
    requires xs != [] && multiset(xs) == multiset(ys)
    ensures ys == p + [xs[|xs| - 1]] + q
    ensures multiset(xs[..|xs| - 1]) == multiset(p + q)
  {
    var a := xs[|xs| - 1];
    assert a in multiset(xs);
    p, q := FindOccurrence(ys, a);
    SplitMultiset(p, a, q);
    DropLast(xs);
  }

  /** The month map does not depend on the order of the records: any
      permutation of them gives the same result. */
  lemma {:induction false} PermutationInvariant(xs: seq<File>, ys: seq<File>)
    requires multiset(xs) == multiset(ys)
    ensures Aggregate(xs) == Aggregate(ys)
    decreases |xs|
  {
    if xs == [] {
      assert |ys| == |multiset(ys)| == 0;
    } else {
      var init, a := xs[..|xs| - 1], xs[|xs| - 1];
      var p, q := TakeOut(xs, ys);
      PermutationInvariant(init, p + q);
      MoveToEnd(p, a, q);
      AggregateSnoc(p + q, a);
      assert xs == init + [a];
      AggregateSnoc(init, a);
    }
  }

  /** Sorting the listing changes nothing: `calculate_summaries` is the fold
      of the files in whatever order the directory lists them. */
  lemma ListingOrderIrrelevant(fs: seq<File>)
    ensures MonthlySummaries(Listing(fs)) == Aggregate(fs)
  {
    PermutationInvariant(SortByName(fs), fs);
  }

  // ---- when the whole call returns {} --------------------------------------

  /** One record that aborts makes the whole result `{}`, wherever it is. */
  lemma AbortAnywhere(files: seq<File>, i: int)
    requires 0 <= i < |files|
    requires EffectOf(files[i].content) == Abort
    ensures Aggregate(files) == None
  {
    assert files[..i + 1] == files[..i] + [files[i]];
    AggregateSnoc(files[..i], files[i]);
    AbortIsFinal(files, i + 1);
  }

  /** The aggregation succeeds exactly when no record aborts. */
  lemma {:induction false} SucceedsIffNoAbort(files: seq<File>)
    ensures Aggregate(files).Some? <==> forall i | 0 <= i < |files| :: EffectOf(files[i].content) != Abort
  {
    if forall i | 0 <= i < |files| :: EffectOf(files[i].content) != Abort {
      if files != [] {
        var init := files[..|files| - 1];
        forall i | 0 <= i < |init| ensures EffectOf(init[i].content) != Abort {
          assert init[i] == files[i];
        }
        SucceedsIffNoAbort(init);
        assert files == init + [files[|files| - 1]];
        AggregateSnoc(init, files[|files| - 1]);
      }
    } else {
      var i :| 0 <= i < |files| && EffectOf(files[i].content) == Abort;
      AbortAnywhere(files, i);
    }
  }

  /** A record whose date is not text, or that `strptime(_, "%Y-%m-%d")`
      rejects, makes the whole call return `{}`: the `ValueError` (or
      `TypeError`) is not among the exceptions skipped at line 71. */
  lemma BadDateAborts(files: seq<File>, i: int, fields: map<string, Value>)
    requires 0 <= i < |files|
    requires files[i].content == Parsed(Object(fields))
    requires "date" in fields
    requires !fields["date"].Text? || ParseDate(fields["date"].s) == None
    ensures Aggregate(files) == None
  {
    AbortAnywhere(files, i);
  }

  /** The fields of a dated record that raise before the record is done, in
      the order the loop body reads them: an `income` that is neither a
      number nor a boolean; after a good `income`, a `savings` that is
      neither; after both, an `expense_details` that is not an object or
      holds an amount that is neither.  A missing `income` or `savings` is a `KeyError` instead. */
  predicate BadFields(fields: map<string, Value>) {
    var income := if "income" in fields then AsAmount(fields["income"]) else None;
    var savings := if "savings" in fields then AsAmount(fields["savings"]) else None;
    || ("income" in fields && income.None?)
    || (income.Some? && "savings" in fields && savings.None?)
    || (income.Some? && savings.Some? && "expense_details" in fields &&
        (!fields["expense_details"].Object? ||
         exists c | c in fields["expense_details"].fields :: AsAmount(fields["expense_details"].fields[c]).None?))
  }

  /** After its month is known, a record raises exactly on bad fields. */
  lemma RecordEffectAborts(k: string, fields: map<string, Value>)
    ensures RecordEffect(k, fields) == Abort <==> BadFields(fields)
  {
  }

  /** A record that is not an object, or a dated one with bad fields, makes
      the whole result `{}` (a `TypeError` or `AttributeError` at lines 59-70
      reaches line 75). */
  lemma ShapeErrorAborts(files: seq<File>, i: int)
    requires 0 <= i < |files| && files[i].content.Parsed?
    requires var doc := files[i].content.doc;
      || !doc.Object?
      || ("date" in doc.fields && doc.fields["date"].Text? && ParseDate(doc.fields["date"].s).Some?
          && BadFields(doc.fields))
    ensures Aggregate(files) == None
  {
    var doc := files[i].content.doc;
    if doc.Object? {
      RecordEffectAborts(MonthKey(ParseDate(doc.fields["date"].s).value), doc.fields);
    }
    AbortAnywhere(files, i);
  }

  /** The same for a file that cannot be opened or read as text. */
  lemma ReadFailureAborts(files: seq<File>, i: int)
    requires 0 <= i < |files|
    requires files[i].content == ReadFailure
    ensures Aggregate(files) == None
  {
    AbortAnywhere(files, i);
  }

  // ---- records that are skipped, wholly or in part --------------------------

  /** A record that is skipped before reaching its month (undecodable, or no
      `"date"`) contributes nothing, and the records after it still count. */
  lemma SkipIsNeutral(p: seq<File>, f: File, q: seq<File>)
    requires EffectOf(f.content) == Skip
    ensures Aggregate(p + [f] + q) == Aggregate(p + q)
  {
    MoveToEnd(p, f, q);
    AggregateSnoc(p + q, f);
  }

  lemma UndecodableOrDatelessIsSkipped(f: File)
    requires f.content == Malformed || (f.content.Parsed? && f.content.doc.Object? && "date" !in f.content.doc.fields)
    ensures EffectOf(f.content) == Skip
  {
  }

  /** A record with a good date and no `"income"` still creates its month's
      bucket (lines 61-62 run before the `KeyError` at line 64). */
  lemma MissingIncomeCreatesBucket(p: seq<File>, f: File, m: Months, fields: map<string, Value>, d: Date)
    requires Aggregate(p) == Some(m)
    requires f.content == Parsed(Object(fields))
    requires "date" in fields && fields["date"].Text? && ParseDate(fields["date"].s) == Some(d)
    requires "income" !in fields
    ensures Aggregate(p + [f]) == Some(m[MonthKey(d) := Bucket(m, MonthKey(d))])
  {
    assert EffectOf(f.content) == Touch(MonthKey(d), 0.0, 0.0, map[]);
    AggregateSnoc(p, f);
    AddAmountsNothing(Bucket(m, MonthKey(d)).expenses);
  }

  /** A record with income but no `"savings"` keeps the income it added
      (line 64 runs before the `KeyError` at line 65). */
  lemma MissingSavingsKeepsIncome(p: seq<File>, f: File, m: Months, fields: map<string, Value>, d: Date, x: real)
    requires Aggregate(p) == Some(m)
    requires f.content == Parsed(Object(fields))
    requires "date" in fields && fields["date"].Text? && ParseDate(fields["date"].s) == Some(d)
    requires "income" in fields && AsAmount(fields["income"]) == Some(x)
    requires "savings" !in fields
    ensures var b := Bucket(m, MonthKey(d));
      Aggregate(p + [f]) == Some(m[MonthKey(d) := b.(income := b.income + x)])
  {
    assert RecordEffect(MonthKey(d), fields) == Touch(MonthKey(d), x, 0.0, map[]);
    assert EffectOf(f.content) == Touch(MonthKey(d), x, 0.0, map[]);
    AggregateSnoc(p, f);
    AddAmountsNothing(Bucket(m, MonthKey(d)).expenses);
  }

  /** A missing `"expense_details"` is read as an empty object
      (`data.get("expense_details", {})`). */
  lemma MissingDetailsIsEmpty(fields: map<string, Value>)
    requires "expense_details" !in fields
    ensures EffectOf(Parsed(Object(fields))) == EffectOf(Parsed(Object(fields["expense_details" := EmptyObject])))
  {
    var fields' := fields["expense_details" := EmptyObject];
    assert Amounts(map[]) == Some(map[]);
    if "date" in fields && fields["date"].Text? && ParseDate(fields["date"].s).Some? {
      var k := MonthKey(ParseDate(fields["date"].s).value);
      assert RecordEffect(k, fields) == RecordEffect(k, fields');
    }
  }

  // ---- what each month's bucket holds --------------------------------------

  predicate Touches(e: Effect, k: string) {
    e.Touch? && e.month == k
  }

  /** Some record reached line 60 with month `k`. */
  ghost predicate MonthSeen(es: seq<Effect>, k: string) {
    exists i | 0 <= i < |es| :: Touches(es[i], k)
  }

  /** Some record of month `k` lists category `c`. */
  ghost predicate CategorySeen(es: seq<Effect>, k: string, c: string) {
    exists i | 0 <= i < |es| :: Touches(es[i], k) && c in es[i].amounts
  }

  /** The income the records of month `k` add. */
  function IncomeIn(es: seq<Effect>, k: string): real {
    if es == [] then 0.0
    else IncomeIn(es[..|es| - 1], k) + (if Touches(es[|es| - 1], k) then es[|es| - 1].income else 0.0)
  }

  function SavingsIn(es: seq<Effect>, k: string): real {
    if es == [] then 0.0
    else SavingsIn(es[..|es| - 1], k) + (if Touches(es[|es| - 1], k) then es[|es| - 1].savings else 0.0)
  }

  function ExpenseIn(es: seq<Effect>, k: string, c: string): real {
    if es == [] then 0.0
    else ExpenseIn(es[..|es| - 1], k, c) + (if Touches(es[|es| - 1], k) then Get0(es[|es| - 1].amounts, c) else 0.0)
  }

  lemma MonthSeenSnoc(es: seq<Effect>, k: string)
    requires es != []
    ensures MonthSeen(es, k) <==> MonthSeen(es[..|es| - 1], k) || Touches(es[|es| - 1], k)
  {
    var init := es[..|es| - 1];
    if MonthSeen(es, k) {
      var i :| 0 <= i < |es| && Touches(es[i], k);
      if i < |init| {
        assert init[i] == es[i];
      }
    }
    if MonthSeen(init, k) {
      var i :| 0 <= i < |init| && Touches(init[i], k);
      assert init[i] == es[i];
    }
  }

  lemma CategorySeenSnoc(es: seq<Effect>, k: string, c: string)
    requires es != []
    ensures CategorySeen(es, k, c)
      <==> CategorySeen(es[..|es| - 1], k, c) || (Touches(es[|es| - 1], k) && c in es[|es| - 1].amounts)
  {
    var init := es[..|es| - 1];
    if CategorySeen(es, k, c) {
      var i :| 0 <= i < |es| && Touches(es[i], k) && c in es[i].amounts;
      if i < |init| {
        assert init[i] == es[i];
      }
    }
    if CategorySeen(init, k, c) {
      var i :| 0 <= i < |init| && Touches(init[i], k) && c in init[i].amounts;
      assert init[i] == es[i];
    }
  }

  /** A month appears in the result exactly when some record reached its
      bucket. */
  lemma {:induction false} MonthKeys(es: seq<Effect>, m: Months)
    requires Fold(es) == Some(m)
    ensures forall k :: k in m <==> MonthSeen(es, k)
  {
    if es != [] {
      var init := es[..|es| - 1];
      MonthKeys(init, Fold(init).value);
      forall k ensures k in m <==> MonthSeen(es, k) {
        MonthSeenSnoc(es, k);
      }
    }
  }

  /** Each month's income and savings are the sums over the records of that
      month; a month no record reached stands at zero. */
  lemma {:induction false} MonthIncomeAndSavings(es: seq<Effect>, m: Months)
    requires Fold(es) == Some(m)
    ensures forall k :: Bucket(m, k).income == IncomeIn(es, k)
    ensures forall k :: Bucket(m, k).savings == SavingsIn(es, k)
  {
    if es != [] {
      var init := es[..|es| - 1];
      MonthIncomeAndSavings(init, Fold(init).value);
    }
  }

  /** Each month's category map holds exactly the categories its records list,
      each with the sum of their amounts. */
  lemma {:induction false} MonthExpenses(es: seq<Effect>, m: Months)
    requires Fold(es) == Some(m)
    ensures forall k, c :: c in Bucket(m, k).expenses <==> CategorySeen(es, k, c)
    ensures forall k, c :: Get0(Bucket(m, k).expenses, c) == ExpenseIn(es, k, c)
  {
    if es != [] {
      var init := es[..|es| - 1];
      MonthExpenses(init, Fold(init).value);
      forall k, c ensures c in Bucket(m, k).expenses <==> CategorySeen(es, k, c) {
        CategorySeenSnoc(es, k, c);
      }
    }
  }

  /** The summary of every month of the store, stated on the files: its keys
      are the months records reached, and its amounts are the per-month sums
      of what those records add. */
  lemma MonthlyTotals(files: seq<File>, m: Months)
    requires Aggregate(files) == Some(m)
    ensures forall k :: k in m <==> MonthSeen(Effects(files), k)
    ensures forall k | k in m ::
      m[k].income == IncomeIn(Effects(files), k) && m[k].savings == SavingsIn(Effects(files), k)
    ensures forall k, c | k in m :: c in m[k].expenses <==> CategorySeen(Effects(files), k, c)
    ensures forall k, c | k in m && c in m[k].expenses :: m[k].expenses[c] == ExpenseIn(Effects(files), k, c)
  {
    var es := Effects(files);
    MonthKeys(es, m);
    MonthIncomeAndSavings(es, m);
    MonthExpenses(es, m);
  }

  /** A record of another month never changes month `k`'s bucket. */
  lemma OtherMonthUntouched(p: seq<File>, f: File, k: string, m: Months)
    requires Aggregate(p) == Some(m)
    requires !Touches(EffectOf(f.content), k)
    requires EffectOf(f.content) != Abort
    ensures Aggregate(p + [f]).Some?
    ensures k in Aggregate(p + [f]).value <==> k in m
    ensures Bucket(Aggregate(p + [f]).value, k) == Bucket(m, k)
  {
    AggregateSnoc(p, f);
  }

  // ---- records written by the "Update" action -------------------------------

  /** A record written by the update path is read back with its own income,
      savings and category amounts, in the month of its date. */
  lemma UpdatePathEffect(form: FormInput)
    ensures var s := Derive(form);
      EffectOf(Parsed(SnapshotDocument(s))) ==
        match ParseDate(form.date)
        case None => Abort
        case Some(d) => Touch(MonthKey(d), s.income, s.savings, s.details)
  {
    var s := Derive(form);
    var doc := SnapshotDocument(s);
    var details := doc.fields["expense_details"].fields;
    assert details == map c | c in s.details :: Number(s.details[c]);
    AmountsOfNumbers(s.details);
  }

  ghost predicate FromUpdatePath(f: File) {
    exists form :: f.content == Parsed(SnapshotDocument(Derive(form)))
  }

  /** The five categories, and `income == savings + expenses`. */
  ghost predicate BucketBalanced(b: Summary) {
    b.expenses.Keys == CategorySet && b.income == b.savings + SumOver(Categories, b.expenses)
  }

  ghost predicate Balanced(m: Months) {
    forall k | k in m :: BucketBalanced(m[k])
  }

  /** Adding a balanced record to an empty or balanced bucket leaves it
      balanced. */
  lemma BucketStep(b: Summary, income: real, savings: real, amounts: map<string, real>)
    requires b == NewBucket || BucketBalanced(b)
    requires amounts.Keys == CategorySet && income == savings + SumOver(Categories, amounts)
    ensures BucketBalanced(Summary(b.income + income, AddAmounts(b.expenses, amounts), b.savings + savings))
  {
    var sum := AddAmounts(b.expenses, amounts);
    forall c | c in Categories ensures Get0(sum, c) == Get0(b.expenses, c) + Get0(amounts, c) {
      assert c in CategorySet;
    }
    SumOverPointwise(Categories, b.expenses, amounts, sum);
    if b == NewBucket {
      SumOverEmpty(Categories);
    }
  }

  lemma BalancedStep(m: Months, e: Effect)
    requires Balanced(m)
    requires e.Touch? && e.amounts.Keys == CategorySet
    requires e.income == e.savings + SumOver(Categories, e.amounts)
    ensures Apply(m, e).Some? && Balanced(Apply(m, e).value)
  {
    BucketStep(Bucket(m, e.month), e.income, e.savings, e.amounts);
  }

  /** What an update-path record adds: the five categories, and income equal
      to savings plus their sum (or it aborts on its date). */
  predicate BalancedEffect(e: Effect) {
    e.Abort? || (e.Touch? && e.amounts.Keys == CategorySet && e.income == e.savings + SumOver(Categories, e.amounts))
  }

  lemma UpdatePathIsBalanced(f: File)
    requires FromUpdatePath(f)
    ensures BalancedEffect(EffectOf(f.content))
  {
    var form :| f.content == Parsed(SnapshotDocument(Derive(form)));
    UpdatePathEffect(form);
    DerivedSnapshotBalanced(form);
  }

  lemma {:induction false} FoldBalanced(es: seq<Effect>, m: Months)
    requires forall i | 0 <= i < |es| :: BalancedEffect(es[i])
    requires Fold(es) == Some(m)
    ensures Balanced(m)
  {
    if es != [] {
      var init := es[..|es| - 1];
      forall i | 0 <= i < |init| ensures BalancedEffect(init[i]) {
        assert init[i] == es[i];
      }
      FoldBalanced(init, Fold(init).value);
      BalancedStep(Fold(init).value, es[|es| - 1]);
    }
  }

  /** When every stored record came from the update path, every month holds
      the five categories and its income equals its savings plus the sum of
      its expense amounts. */
  lemma UpdatePathBalanced(files: seq<File>, m: Months)
    requires forall i | 0 <= i < |files| :: FromUpdatePath(files[i])
    requires Aggregate(files) == Some(m)
    ensures Balanced(m)
  {
    var es := Effects(files);
    forall i | 0 <= i < |es| ensures BalancedEffect(es[i]) {
      UpdatePathIsBalanced(files[i]);
    }
    FoldBalanced(es, m);
  }
}
