# PersonalBudget: the snapshot store and the monthly aggregation

PersonalBudget.py is a small Dash application for tracking a weekly budget.
The "Update" action works in three steps:

- it derives a snapshot from the form: income, the five expense categories, their total, and savings;
- it saves the snapshot as one JSON file per save, named after the moment of saving;
- it rebuilds per-month totals by reading every stored file in file-name order.

At start-up the file with the greatest name is reloaded.

This project models that core in Dafny and proves what it does.

- `Snapshot` models the form arithmetic (PersonalBudget.py:161-170) in `Derive`. `OrZero` is the `x or 0` of lines 161-167, which makes an empty field count as 0. `SnapshotDocument` is the JSON document that gets written (lines 176-182).
- `SnapshotStore` is the data directory as a value:
  - the listing, and `sorted` by code-point order;
  - `save_weekly_data` (PersonalBudget.py:40-47) as `Save`: `FileName` builds the name `weekly_data_%Y-%m-%d_%H-%M-%S.json` (lines 42-43) and `Put` writes it with `"w"`. `FileNameOrder` relates the names to the moments they print.
  - `load_previous_data` (PersonalBudget.py:28-37) as `LoadPrevious`. `LoadPreviousReadsGreatest` and `LoadPreviousEmpty` state what it returns.
- `Dates` models `datetime.strptime(s, "%Y-%m-%d")`. It follows CPython's directive patterns:
  - four digits for the year;
  - a one- or two-digit month;
  - a day written as one digit, two digits, or a space followed by one digit;
  - nothing may follow the day;
  - years run from 1 to 9999, and the day must exist in its month.

  It also models `strftime("%Y-%m")`, the month key.
- `Aggregator` models `calculate_summaries`:
  - `EffectOf` and `RecordEffect` name the effect of one record, and `Effects` lists them for a list of files. A record either aborts the whole call, is skipped, or touches its month bucket.
  - `Json.AsAmount` is the `+=` rule of lines 64, 65 and 70: a number adds itself, a boolean adds 1 or 0, and anything else raises `TypeError`.
  - `Apply` is one record's update of the month buckets (lines 61-70). An aborting record gives `{}` and a skipped one changes nothing. A touching record creates its month's bucket when missing and adds its income, savings and amounts into it.
  - `Aggregate` folds those effects in the order the files are given, and `MonthlySummaries` applies it to the listing sorted by name.
  - `CalculateSummaries` is the loop of the source, written imperatively. It is proved to compute `MonthlySummaries`.
  - Its inner loop `AccumulateExpenses` is proved to compute the category-wise sum `AddAmounts`.
- `SummaryLaws` holds what the aggregation promises:
  - the per-month sums and isolation between months;
  - which buckets exist;
  - that the order of the files does not matter;
  - the records that are skipped wholly or in part;
  - that one bad record empties the whole result;
  - the balance `income == savings + expenses` of stores written only by the update path.
- `Scenarios` holds concrete cases:
  - the form's default date `"0-0-0"` and 30 February are rejected;
  - two January weeks add up to one bucket;
  - a February week does not touch January.

A record whose date does not parse is not just dropped: the `ValueError` raised by `strptime` is not among the exceptions caught at line 71, so it reaches line 75 and the whole call returns `{}`. The same holds for every `TypeError` and `AttributeError` raised by a record of the wrong shape, and for an error while opening or decoding a file as text. Only `JSONDecodeError` and `KeyError` skip a record. Whatever that record added before its `KeyError` stays in the result.

Values are modelled as follows:

- JSON numbers are exact `real`s.
- A JSON boolean adds as 1 or 0, as Python's `bool` does.
- JSON objects are maps. Their key order changes no result of the model.
- `Option.None` stands for the `{}` that `calculate_summaries` returns on failure. `Some(m)` stands for `{"monthly_data": m}`.
- The clock and the success of a write are parameters (`Save`'s `now` and `written`).
- The directory listing is an input.

## Model

| member | source | states |
|---|---|---|
| Snapshot.Derive | PersonalBudget.py:161-170 | income is salary plus extra with an empty field as 0; the details hold exactly the five categories, each the form's value or 0; the total is their sum; income equals savings plus the total |
| Snapshot.DerivedSnapshotBalanced | PersonalBudget.py:169-170 | the total of a derived snapshot is the sum over its five categories and its savings are income minus that sum |
| Snapshot.SnapshotDocument | PersonalBudget.py:176-182 | the saved document is an object with exactly the keys date, income, expenses, savings and expense_details, and reading it back gives the snapshot it was written from |
| Snapshot.ReadThenWrite | PersonalBudget.py:176-182 | a document that reads as a snapshot is exactly the one written for that snapshot, so writing and reading are inverse |
| Snapshot.SavedDocumentBalanced | PersonalBudget.py:176-182 | in the written document expense_details holds numbers for exactly the five categories, expenses is their sum, and savings is income minus expenses |
| Snapshot.SumOverCategories | PersonalBudget.py:169 | `sum(weekly_expenses.values())` over the five categories is Rent + Food + Transport + Leisure + Extra |
| StringOrder.Trichotomy | PersonalBudget.py:30 | the order `sorted` uses on names is total: of any two names one is less, or they are equal |
| StringOrder.Irreflexive | PersonalBudget.py:30 | no name sorts before itself |
| StringOrder.Asymmetric | PersonalBudget.py:30 | no two names each sort before the other |
| StringOrder.Transitive | PersonalBudget.py:30 | that order is transitive |
| StringOrder.ConcatSameLength | PersonalBudget.py:42-43 | names built from fields of equal width compare field by field |
| SnapshotStore.SortByName | PersonalBudget.py:30 | `sorted(os.listdir(...))` is a permutation of the listing, ordered by name |
| SnapshotStore.InsertKeepsFiles | PersonalBudget.py:30 | inserting a file into a sorted listing adds exactly that file |
| SnapshotStore.InsertKeepsOrder | PersonalBudget.py:30 | inserting a file into a sorted listing keeps it sorted |
| SnapshotStore.LatestIsGreatest | PersonalBudget.py:30-32 | `files[-1]` is a file of the listing whose name is at least every other name |
| SnapshotStore.GreatestSortsLast | PersonalBudget.py:30-32 | a file whose name is greater than every other name of the listing sorts last |
| SnapshotStore.LoadPreviousReadsGreatest | PersonalBudget.py:28-37 | start-up reloads the file with the greatest name: its document when it decodes, otherwise `{}` |
| SnapshotStore.LoadPreviousEmpty | PersonalBudget.py:29-37 | an unlistable or empty directory reloads `{}` |
| SnapshotStore.Stamp | PersonalBudget.py:42 | the `%Y-%m-%d_%H-%M-%S` stamp is 19 characters long |
| SnapshotStore.Pad2Order | PersonalBudget.py:42 | two-digit fields compare as the numbers they print |
| SnapshotStore.Pad4Order | PersonalBudget.py:42 | four-digit years compare as the numbers they print |
| SnapshotStore.StampOrder | PersonalBudget.py:42 | stamps compare as the moments they print, and equal stamps are equal moments |
| SnapshotStore.FileNameOrder | PersonalBudget.py:42-43 | one file name sorts before another exactly when its moment is earlier, and names are equal exactly when moments are |
| SnapshotStore.Put | PersonalBudget.py:44-45 | writing with `"w"` leaves the new file in the directory, keeps every file of another name, adds nothing else, and appends when the name is new |
| SnapshotStore.PutOverwrites | PersonalBudget.py:44-45 | in a directory of distinct names, writing a name leaves that name holding only the new content |
| SnapshotStore.PutKeepsNamesDistinct | PersonalBudget.py:44-45 | writing a file keeps the names of a directory distinct |
| SnapshotStore.PutSize | PersonalBudget.py:44-45 | writing an existing name keeps the number of files; a new name adds one |
| SnapshotStore.Save | PersonalBudget.py:40-47 | a failed write, or a missing directory, leaves the store as it was |
| SnapshotStore.SaveThenLoad | PersonalBudget.py:28-47 | when every stored file was saved earlier than now, the next start-up reloads exactly what was saved now |
| Dates.DaysInMonth | PersonalBudget.py:59 | months have 28 to 31 days, and February has 29 exactly in Gregorian leap years |
| Dates.ParseDate | PersonalBudget.py:59 | whatever `strptime` accepts is a real date with a year from 1 to 9999 |
| Dates.ParsedIsSpelling | PersonalBudget.py:59 | a text that parses is a spelling of the date it parses to |
| Dates.SpellingParses | PersonalBudget.py:59 | every spelling of a valid date parses to that date |
| Dates.ParseDateExactly | PersonalBudget.py:59 | `strptime` accepts exactly the spellings of valid dates (four-digit year, one- or two-digit month, one-digit, two-digit or space-led day), each as the date it spells |
| Dates.MonthTokenSpelling | PersonalBudget.py:59 | the month directive reads exactly the one- and two-digit spellings of 1 to 12 |
| Dates.DayTokenSpelling | PersonalBudget.py:59 | the day directive reads exactly the one-digit, two-digit and space-led spellings of 1 to 31 |
| Dates.Pad4Value | PersonalBudget.py:59-60 | a year printed with four digits reads back as itself |
| Dates.Value4Pad | PersonalBudget.py:59-60 | four digits read as a year print back as themselves |
| Dates.ParseFormat | PersonalBudget.py:59 | the canonical `%Y-%m-%d` text of a date parses back to it |
| Dates.MonthKey | PersonalBudget.py:60 | the month key is seven characters with a dash after the year |
| Dates.MonthKeyInjective | PersonalBudget.py:60 | two dates share a month key exactly when they share year and month |
| Aggregator.AmountsOfNumbers | PersonalBudget.py:67-70 | an `expense_details` object whose amounts are all numbers is read back as exactly those category amounts |
| Aggregator.DetailAmounts | PersonalBudget.py:67-70 | the details raise exactly when `expense_details` is present and is not an object or holds an amount that is not a number or boolean; otherwise they add one amount per key of the object, each its value, and nothing when the key is absent |
| Aggregator.RecordEffect | PersonalBudget.py:60-70 | once its month is known, a record either raises or adds into that month only |
| Aggregator.AggregateSnoc | PersonalBudget.py:54-70 | folding one more file applies its record to the result so far |
| Aggregator.AccumulateExpenses | PersonalBudget.py:67-70 | the inner loop raises exactly when some amount is neither a number nor a boolean; otherwise every category of either the bucket or the record is kept, holding the bucket's amount plus the record's, an absent one counting 0 |
| Aggregator.AddRecord | PersonalBudget.py:56-72 | the loop body on one file applies that file's record: raise, skip, or add into its month |
| Aggregator.AddToMonth | PersonalBudget.py:60-70 | after the month is known, the body creates the bucket when missing and applies the rest of the record |
| Aggregator.NewBucketIsNeutral | PersonalBudget.py:61-62 | creating the zero bucket first does not change what the record then adds |
| Aggregator.AddFields | PersonalBudget.py:64-70 | income, savings and details are added into the existing bucket in that order, and stop at the first missing key or bad value |
| Aggregator.AddDetails | PersonalBudget.py:67-70 | the expense details are added category by category into the bucket, or raise |
| Aggregator.AbortIsFinal | PersonalBudget.py:71-77 | once a record has raised, the whole call returns `{}` whatever follows |
| Aggregator.CalculateSummaries | PersonalBudget.py:50-77 | the loop over sorted files returns `{}` when the listing fails or some record raises, and otherwise the fold of every record in name order |
| SummaryLaws.FirstRecordOfMonth | PersonalBudget.py:61-62 | the first record of a month starts from a bucket of 0 income, no categories and 0 savings |
| SummaryLaws.AddAmountsNothing | PersonalBudget.py:67-70 | adding an empty category map into a bucket's map, or a map into an empty one, changes nothing |
| SummaryLaws.AddAmountsCommute | PersonalBudget.py:67-70 | the amounts of two records may be added into a bucket's category map in either order |
| SummaryLaws.AddedCommutes | PersonalBudget.py:64-70 | adding two records into one bucket gives the same bucket in either order |
| SummaryLaws.SameMonthCommutes | PersonalBudget.py:60-70 | two records of one month give the same bucket in either order |
| SummaryLaws.OtherMonthsCommute | PersonalBudget.py:60-70 | two records of different months may be applied in either order |
| SummaryLaws.ThenCommutes | PersonalBudget.py:54-77 | any two records may be applied in either order |
| SummaryLaws.MoveToEnd | PersonalBudget.py:54-77 | moving one file to the end of the list does not change the result |
| SummaryLaws.PermutationInvariant | PersonalBudget.py:52-77 | the result does not depend on the order of the files: every permutation gives the same |
| SummaryLaws.ListingOrderIrrelevant | PersonalBudget.py:52 | the order in which `os.listdir` lists the files is irrelevant: the result is the fold over the listing as given |
| SummaryLaws.AbortAnywhere | PersonalBudget.py:71-77 | one record that raises anywhere in the list makes the whole result `{}` |
| SummaryLaws.SucceedsIffNoAbort | PersonalBudget.py:54-77 | the call returns monthly data exactly when no record raises |
| SummaryLaws.BadDateAborts | PersonalBudget.py:59-77 | a record whose date is not text or does not parse makes the whole result `{}` |
| SummaryLaws.RecordEffectAborts | PersonalBudget.py:64-70 | a dated record raises exactly when its income is not a number or boolean, or, after a good income, its savings are not, or, after both, its `expense_details` is not an object or holds an amount that is not a number or boolean |
| SummaryLaws.ShapeErrorAborts | PersonalBudget.py:59-77 | a top-level document that is not an object, or a dated record with a bad income, savings, `expense_details` or amount, makes the whole result `{}` |
| SummaryLaws.ReadFailureAborts | PersonalBudget.py:57-77 | a file that cannot be opened or read as text makes the whole result `{}` |
| SummaryLaws.SkipIsNeutral | PersonalBudget.py:71-72 | a skipped record contributes nothing and the records after it still count |
| SummaryLaws.UndecodableOrDatelessIsSkipped | PersonalBudget.py:58-72 | an undecodable file, or an object without a date, is skipped |
| SummaryLaws.MissingIncomeCreatesBucket | PersonalBudget.py:61-72 | a dated record without income still creates its month's bucket and adds nothing more |
| SummaryLaws.MissingSavingsKeepsIncome | PersonalBudget.py:64-72 | a record with income but no savings keeps the income it added and adds nothing more |
| SummaryLaws.MissingDetailsIsEmpty | PersonalBudget.py:67 | a missing `expense_details` acts exactly as an empty object |
| SummaryLaws.MonthSeenSnoc | PersonalBudget.py:60-62 | a month is seen after one more record exactly when it was seen before or that record touches it |
| SummaryLaws.CategorySeenSnoc | PersonalBudget.py:67-69 | a category of a month is seen after one more record exactly when it was seen before or that record adds it to that month |
| SummaryLaws.MonthKeys | PersonalBudget.py:60-62 | a month is in the result exactly when some record reached its bucket |
| SummaryLaws.MonthIncomeAndSavings | PersonalBudget.py:64-65 | each month's income and savings are the sums over the records of that month |
| SummaryLaws.MonthExpenses | PersonalBudget.py:67-70 | each month holds exactly the categories its records name, each the sum of that category over those records, a record without it adding 0 |
| SummaryLaws.MonthlyTotals | PersonalBudget.py:54-74 | the monthly data has one bucket per month reached, holding the sums of income, savings and each category over that month's records |
| SummaryLaws.OtherMonthUntouched | PersonalBudget.py:60-70 | a record of another month, or one that is skipped, leaves a month's bucket as it was |
| SummaryLaws.UpdatePathEffect | PersonalBudget.py:161-183 | a snapshot written by the update path adds its income, savings and five category amounts to its month, or raises on its date |
| SummaryLaws.BucketStep | PersonalBudget.py:64-70 | adding a balanced record into a new or balanced bucket keeps it balanced |
| SummaryLaws.BalancedStep | PersonalBudget.py:64-70 | applying a balanced record keeps every bucket balanced |
| SummaryLaws.UpdatePathIsBalanced | PersonalBudget.py:161-183 | each update-path file adds the five categories with income equal to savings plus their sum, or raises |
| SummaryLaws.FoldBalanced | PersonalBudget.py:54-70 | folding balanced records yields balanced buckets |
| SummaryLaws.UpdatePathBalanced | PersonalBudget.py:54-70 | when every stored file came from the update path, every month holds the five categories and its income equals its savings plus the sum of its expenses |
| Scenarios.DefaultDateRejected | PersonalBudget.py:91 | the form's default date "0-0-0" does not parse |
| Scenarios.FebruaryDays | PersonalBudget.py:59 | "2024-02-30" and "2023-02-29" do not parse; "2024-02-29" does |
| Scenarios.ShortSpellings | PersonalBudget.py:59 | "2024-1-5" and the space-led "2024-1- 5" parse; trailing text does not |
| Scenarios.JanuaryTotals | PersonalBudget.py:50-77 | weeks of 1000/200 and 1200/300 with Rent and Food give the January bucket 2200, {Rent: 1000, Food: 700}, 500, in any listing order |
| Scenarios.FebruaryIsSeparate | PersonalBudget.py:60-70 | a February week leaves that January bucket as it was |
| Scenarios.DefaultDatePoisonsStore | PersonalBudget.py:54-77 | one week saved with the default date empties every later summary |

## Left out

- The Dash layout, the callbacks' figures and the plotly charts are not modelled. They are presentation only.
- `get_exchange_rate`, characterised by its 0.6 fallback, is not modelled. Neither are the EUR conversion and the formatting of amounts. These need the network, and they affect only displayed strings.
- `reset_all_data` is not modelled. It is called but never defined, so the reset action always ends in the `NameError` branch.
- Logging through `print` is not modelled.
- The real file system and clock are not modelled:
  - the listing is an input;
  - the moment of saving and the success of a write are parameters;
  - a partly written file is not modelled;
  - neither is a race between two saves in the same second.
- The creation of the data directory at import time is not modelled.
- Python floats are not modelled: rounding, NaN and Infinity. Amounts are exact reals.
- Python ints and floats are not told apart in a total.
- JSON encoding and decoding are not modelled. `Save` stores the document as a value, and reading it back yields that value.
- Unicode digits are not modelled. `strptime`'s `\d` also matches non-ASCII decimal digits; the model accepts ASCII digits only.
- `Dates.MonthKey`, `SnapshotStore.Stamp` and `SnapshotStore.FileNameOrder` always pad years to four digits. Some platforms' `strftime` print years below 1000 without padding, and then file names of such years would not sort by moment.
- Dictionary insertion order and the iteration order of `expense_details.items()` are not modelled. No result of the model depends on them.
- `SnapshotStore.SaveThenLoad` assumes a clock that never goes back: every stored save is earlier than the new one. `datetime.now()` at line 42 is local wall-clock time, which can step back at the end of daylight saving time or on a clock correction. A save at 02:45 before the step and one at 02:05 after it give the later save the smaller name, and start-up then reloads the earlier save. The model does not describe the clock.
- `SnapshotStore.Put` replaces only the first file of a given name; a directory never holds two.
- `SnapshotStore.Save` does not state the store's content after a write in its own contract. `SaveThenLoad` and `PutOverwrites` state it.
