/** The snapshot store of PersonalBudget.py: one JSON file per saved week in
    the data directory, named after the moment it was saved
    (`save_weekly_data`), and the start-up reload of the newest one
    (`load_previous_data`).  The directory is a value: its listing is a
    sequence of files in whatever order `os.listdir` returns them. */
module SnapshotStore {
  import opened Wrappers
  import opened Json
  import opened Dates
  import opened StringOrder

  /** What opening and decoding a file yields. */
  datatype Content =
    | ReadFailure       // `open` or reading the text raised (an OSError, a UnicodeDecodeError)
    | Malformed         // `json.load` raised JSONDecodeError
    | Parsed(doc: Value)

  datatype File = File(name: string, content: Content)

  /** `os.listdir(DATA_DIR)`: it raises, or it lists the files (names are
      distinct, as in any directory). */
  datatype Directory = Unlistable | Listing(files: seq<File>)

  // ---- sorted(os.listdir(...)) --------------------------------------------

  ghost predicate SortedByName(fs: seq<File>) {
    forall i, j | 0 <= i < j < |fs| :: LessEq(fs[i].name, fs[j].name)
  }

  /** All of `s` sorts at or after `name`. */
  ghost predicate BoundBelow(name: string, s: seq<File>) {
    forall j | 0 <= j < |s| :: LessEq(name, s[j].name)
  }

  /** One step of an insertion sort by name. */
  function Insert(f: File, sorted: seq<File>): seq<File>
  {
    if sorted == [] then [f]
    else if LessEq(f.name, sorted[0].name) then [f] + sorted
    else [sorted[0]] + Insert(f, sorted[1..])
  }

  lemma {:induction false} InsertKeepsFiles(f: File, sorted: seq<File>)
    ensures multiset(Insert(f, sorted)) == multiset(sorted) + multiset{f}
  {
    if sorted != [] && !LessEq(f.name, sorted[0].name) {
      InsertKeepsFiles(f, sorted[1..]);
      assert sorted == [sorted[0]] + sorted[1..];
    }
  }

  lemma {:induction false} InsertKeepsOrder(f: File, sorted: seq<File>)
    requires SortedByName(sorted)
    ensures SortedByName(Insert(f, sorted))
  {
    if sorted == [] {
    } else if LessEq(f.name, sorted[0].name) {
      forall j | 0 <= j < |sorted| ensures LessEq(f.name, sorted[j].name) {
        LessEqTransitive(f.name, sorted[0].name, sorted[j].name);
      }
    } else {
      var head, rest := sorted[0], Insert(f, sorted[1..]);
      InsertKeepsOrder(f, sorted[1..]);
      InsertKeepsFiles(f, sorted[1..]);
      LessEqTotal(f.name, head.name);
      forall j | 0 <= j < |rest| ensures LessEq(head.name, rest[j].name) {
        assert rest[j] in multiset(rest);
        if rest[j] != f {
          assert rest[j] in multiset(sorted[1..]);
          var k :| 0 <= k < |sorted[1..]| && sorted[1..][k] == rest[j];
          assert sorted[k + 1] == rest[j];
        }
      }
      assert BoundBelow(head.name, rest);
    }
  }

  /** Python's `sorted` on the listing: the same files, in name order. */
  function SortByName(fs: seq<File>): (r: seq<File>)
    ensures multiset(r) == multiset(fs)
    ensures |r| == |fs|
    ensures SortedByName(r)
  {
    if fs == [] then []
    else
      assert fs == [fs[0]] + fs[1..];
      var rest := SortByName(fs[1..]);
      InsertKeepsFiles(fs[0], rest);
      InsertKeepsOrder(fs[0], rest);
      var r := Insert(fs[0], rest);
      assert |r| == |multiset(r)|;
      r
  }

  /** The last file of the sorted listing is one of the files and carries the
      greatest name. */
  lemma LatestIsGreatest(fs: seq<File>)
    requires fs != []
    ensures SortByName(fs)[|fs| - 1] in fs
    ensures forall f | f in fs :: LessEq(f.name, SortByName(fs)[|fs| - 1].name)
  {
    var sorted := SortByName(fs);
    var last := sorted[|fs| - 1];
    assert last in multiset(sorted);
    forall f | f in fs ensures LessEq(f.name, last.name) {
      assert f in multiset(sorted);
      var j :| 0 <= j < |sorted| && sorted[j] == f;
    }
  }

  // ---- load_previous_data -------------------------------------------------

  /** `load_previous_data`: the decoded content of the file with the greatest
      name, or `{}` when the listing fails, is empty, or that file cannot be
      read or decoded. */
  function LoadPrevious(dir: Directory): Value
  {
    match dir
    case Unlistable => EmptyObject
    case Listing(fs) =>
      if fs == [] then EmptyObject
      else
        match SortByName(fs)[|fs| - 1].content
        case Parsed(doc) => doc
        case _ => EmptyObject
  }

  /** A strictly greater name cannot also be at most the other one. */
  lemma LessExcludesGreaterEq(a: string, b: string)
    requires Less(a, b)
    ensures !LessEq(b, a)
  {
    Irreflexive(a);
    Asymmetric(a, b);
  }

  /** The file whose name is greater than every other name sorts last. */
  lemma GreatestSortsLast(fs: seq<File>, i: int)
    requires 0 <= i < |fs|
    requires forall j | 0 <= j < |fs| && j != i :: Less(fs[j].name, fs[i].name)
    ensures SortByName(fs)[|fs| - 1] == fs[i]
  {
    LatestIsGreatest(fs);
    var last := SortByName(fs)[|fs| - 1];
    var j :| 0 <= j < |fs| && fs[j] == last;
    assert fs[i] in fs;
    assert j == i by {
      if j != i {
        LessExcludesGreaterEq(fs[j].name, fs[i].name);
      }
    }
  }

  /** The file reloaded is the one whose name sorts last. */
  lemma LoadPreviousReadsGreatest(fs: seq<File>, i: int)
    requires 0 <= i < |fs|
    requires forall j | 0 <= j < |fs| && j != i :: Less(fs[j].name, fs[i].name)
    ensures LoadPrevious(Listing(fs)) == if fs[i].content.Parsed? then fs[i].content.doc else EmptyObject
  {
    GreatestSortsLast(fs, i);
  }

  lemma LoadPreviousEmpty(dir: Directory)
    requires dir.Unlistable? || dir.files == []
    ensures LoadPrevious(dir) == EmptyObject
  {
  }

  // ---- save_weekly_data ---------------------------------------------------

  /** `datetime.now()` to the second (`strftime` drops the microseconds). */
  datatype Timestamp = Timestamp(year: int, month: int, day: int, hour: int, minute: int, second: int)

  predicate ValidTimestamp(t: Timestamp) {
    && ValidDate(Date(t.year, t.month, t.day))
    && 0 <= t.hour < 24 && 0 <= t.minute < 60 && 0 <= t.second < 60
  }

  /** Chronological order of timestamps. */
  predicate Earlier(a: Timestamp, b: Timestamp) {
    || a.year < b.year
    || (a.year == b.year && a.month < b.month)
    || (a.year == b.year && a.month == b.month && a.day < b.day)
    || (a.year == b.year && a.month == b.month && a.day == b.day && a.hour < b.hour)
    || (a.year == b.year && a.month == b.month && a.day == b.day && a.hour == b.hour && a.minute < b.minute)
    || (a.year == b.year && a.month == b.month && a.day == b.day && a.hour == b.hour && a.minute == b.minute
        && a.second < b.second)
  }

  /** `now.strftime("%Y-%m-%d_%H-%M-%S")`. */
  function Stamp(t: Timestamp): (s: string)
    requires ValidTimestamp(t)
    ensures |s| == 19
  {
    Pad4(t.year) + "-" + Pad2(t.month) + "-" + Pad2(t.day) + "_"
      + Pad2(t.hour) + "-" + Pad2(t.minute) + "-" + Pad2(t.second)
  }

  const NamePrefix: string := "weekly_data_"
  const NameSuffix: string := ".json"

  /** The name `save_weekly_data` gives the file it writes. */
  function FileName(t: Timestamp): string
    requires ValidTimestamp(t)
  {
    NamePrefix + Stamp(t) + NameSuffix
  }

  lemma Pad2Order(a: int, b: int)
    requires 0 <= a <= 99 && 0 <= b <= 99
    ensures Less(Pad2(a), Pad2(b)) <==> a < b
    ensures Pad2(a) == Pad2(b) <==> a == b
  {
    DigitCharOrder(a / 10, b / 10);
    DigitCharOrder(a % 10, b % 10);
    assert Pad2(a)[1..] == [DigitChar(a % 10)] && Pad2(b)[1..] == [DigitChar(b % 10)];
    assert Less([DigitChar(a % 10)], [DigitChar(b % 10)]) <==> DigitChar(a % 10) < DigitChar(b % 10);
  }

  lemma Pad4Order(a: int, b: int)
    requires 0 <= a <= 9999 && 0 <= b <= 9999
    ensures Less(Pad4(a), Pad4(b)) <==> a < b
    ensures Pad4(a) == Pad4(b) <==> a == b
  {
    ConcatSameLength(Pad2(a / 100), Pad2(a % 100), Pad2(b / 100), Pad2(b % 100));
    Pad2Order(a / 100, b / 100);
    Pad2Order(a % 100, b % 100);
    if Pad4(a) == Pad4(b) {
      assert Pad4(a)[..2] == Pad2(a / 100) && Pad4(b)[..2] == Pad2(b / 100);
      assert Pad4(a)[2..] == Pad2(a % 100) && Pad4(b)[2..] == Pad2(b % 100);
    }
  }

  /** One fixed-width field followed by the rest of the text. */
  lemma FieldStep(x1: string, x2: string, r1: string, r2: string)
    requires |x1| == |x2|
    ensures Less(x1 + r1, x2 + r2) <==> Less(x1, x2) || (x1 == x2 && Less(r1, r2))
    ensures x1 + r1 == x2 + r2 <==> x1 == x2 && r1 == r2
  {
    ConcatSameLength(x1, r1, x2, r2);
    if x1 + r1 == x2 + r2 {
      assert (x1 + r1)[..|x1|] == x1 && (x2 + r2)[..|x2|] == x2;
      assert (x1 + r1)[|x1|..] == r1 && (x2 + r2)[|x2|..] == r2;
    }
  }

  /** A separator shared by both texts does not decide anything. */
  lemma SeparatorStep(sep: string, r1: string, r2: string)
    ensures Less(sep + r1, sep + r2) <==> Less(r1, r2)
    ensures sep + r1 == sep + r2 <==> r1 == r2
  {
    FieldStep(sep, sep, r1, r2);
    Irreflexive(sep);
  }

  /** Fields after the year, nested to the right so that each step compares
      one fixed-width field. */
  function TimeTail(h: int, mi: int, s: int): string
    requires 0 <= h < 24 && 0 <= mi < 60 && 0 <= s < 60
  {
    Pad2(h) + ("-" + (Pad2(mi) + ("-" + Pad2(s))))
  }

  function StampTail(t: Timestamp): string
    requires ValidTimestamp(t)
  {
    "-" + (Pad2(t.month) + ("-" + (Pad2(t.day) + ("_" + TimeTail(t.hour, t.minute, t.second)))))
  }

  lemma TimeTailOrder(a: Timestamp, b: Timestamp)
    requires ValidTimestamp(a) && ValidTimestamp(b)
    ensures Less(TimeTail(a.hour, a.minute, a.second), TimeTail(b.hour, b.minute, b.second))
      <==> a.hour < b.hour || (a.hour == b.hour && (a.minute < b.minute || (a.minute == b.minute && a.second < b.second)))
    ensures TimeTail(a.hour, a.minute, a.second) == TimeTail(b.hour, b.minute, b.second)
      <==> a.hour == b.hour && a.minute == b.minute && a.second == b.second
  {
    Pad2Order(a.hour, b.hour);
    Pad2Order(a.minute, b.minute);
    Pad2Order(a.second, b.second);
    SeparatorStep("-", Pad2(a.second), Pad2(b.second));
    FieldStep(Pad2(a.minute), Pad2(b.minute), "-" + Pad2(a.second), "-" + Pad2(b.second));
    SeparatorStep("-", Pad2(a.minute) + ("-" + Pad2(a.second)), Pad2(b.minute) + ("-" + Pad2(b.second)));
    FieldStep(Pad2(a.hour), Pad2(b.hour),
      "-" + (Pad2(a.minute) + ("-" + Pad2(a.second))), "-" + (Pad2(b.minute) + ("-" + Pad2(b.second))));
  }

  lemma StampTailOrder(a: Timestamp, b: Timestamp)
    requires ValidTimestamp(a) && ValidTimestamp(b)
    ensures Less(StampTail(a), StampTail(b)) <==> Earlier(a.(year := b.year), b)
    ensures StampTail(a) == StampTail(b)
      <==> (a.month == b.month && a.day == b.day && a.hour == b.hour && a.minute == b.minute && a.second == b.second)
  {
    var ta, tb := TimeTail(a.hour, a.minute, a.second), TimeTail(b.hour, b.minute, b.second);
    TimeTailOrder(a, b);
    Pad2Order(a.month, b.month);
    Pad2Order(a.day, b.day);
    SeparatorStep("_", ta, tb);
    FieldStep(Pad2(a.day), Pad2(b.day), "_" + ta, "_" + tb);
    SeparatorStep("-", Pad2(a.day) + ("_" + ta), Pad2(b.day) + ("_" + tb));
    FieldStep(Pad2(a.month), Pad2(b.month), "-" + (Pad2(a.day) + ("_" + ta)), "-" + (Pad2(b.day) + ("_" + tb)));
    SeparatorStep("-", Pad2(a.month) + ("-" + (Pad2(a.day) + ("_" + ta))),
      Pad2(b.month) + ("-" + (Pad2(b.day) + ("_" + tb))));
  }

  lemma StampShape(t: Timestamp)
    requires ValidTimestamp(t)
    ensures Stamp(t) == Pad4(t.year) + StampTail(t)
  {
  }

  /** Because every field has a fixed width, the saved names sort exactly
      like the moments they were saved at. */
  lemma StampOrder(a: Timestamp, b: Timestamp)
    requires ValidTimestamp(a) && ValidTimestamp(b)
    ensures Less(Stamp(a), Stamp(b)) <==> Earlier(a, b)
    ensures Stamp(a) == Stamp(b) <==> a == b
  {
    StampShape(a);
    StampShape(b);
    Pad4Order(a.year, b.year);
    StampTailOrder(a, b);
    FieldStep(Pad4(a.year), Pad4(b.year), StampTail(a), StampTail(b));
  }

  /** Lexicographic order of the file names is chronological order of the
      timestamps, and two saves collide only within the same second. */
  lemma {:induction false} FileNameOrder(a: Timestamp, b: Timestamp)
    requires ValidTimestamp(a) && ValidTimestamp(b)
    ensures Less(FileName(a), FileName(b)) <==> Earlier(a, b)
    ensures FileName(a) == FileName(b) <==> a == b
  {
    StampOrder(a, b);
    assert FileName(a) == NamePrefix + (Stamp(a) + NameSuffix);
    assert FileName(b) == NamePrefix + (Stamp(b) + NameSuffix);
    SeparatorStep(NamePrefix, Stamp(a) + NameSuffix, Stamp(b) + NameSuffix);
    FieldStep(Stamp(a), Stamp(b), NameSuffix, NameSuffix);
    Irreflexive(NameSuffix);
  }

  /** Writes `content` under `name` with `open(path, "w")`: an existing file
      of that name is overwritten, otherwise the file is new. */
  function Put(fs: seq<File>, name: string, content: Content): (r: seq<File>)
    ensures File(name, content) in r
    ensures forall f | f in r :: f == File(name, content) || f in fs
    ensures forall f | f in fs && f.name != name :: f in r
    ensures (forall f | f in fs :: f.name != name) ==> r == fs + [File(name, content)]
  {
    if fs == [] then [File(name, content)]
    else if fs[0].name == name then [File(name, content)] + fs[1..]
    else [fs[0]] + Put(fs[1..], name, content)
  }

  ghost predicate DistinctNames(fs: seq<File>) {
    forall i, j | 0 <= i < j < |fs| :: fs[i].name != fs[j].name
  }

  lemma DistinctTail(fs: seq<File>)
    requires fs != [] && DistinctNames(fs)
    ensures DistinctNames(fs[1..])
    ensures forall f | f in fs[1..] :: f.name != fs[0].name
  {
    var rest := fs[1..];
    forall i, j | 0 <= i < j < |rest| ensures rest[i].name != rest[j].name {
      assert rest[i] == fs[i + 1] && rest[j] == fs[j + 1];
    }
    forall f | f in rest ensures f.name != fs[0].name {
      var j :| 0 <= j < |rest| && rest[j] == f;
      assert fs[j + 1] == f;
    }
  }

  lemma DistinctCons(f: File, t: seq<File>)
    requires DistinctNames(t)
    requires forall g | g in t :: g.name != f.name
    ensures DistinctNames([f] + t)
  {
    var r := [f] + t;
    forall i, j | 0 <= i < j < |r| ensures r[i].name != r[j].name {
      assert r[j] == t[j - 1];
      if i == 0 {
        assert t[j - 1] in t;
      } else {
        assert r[i] == t[i - 1];
      }
    }
  }

  /** Writing into a directory keeps its names distinct. */
  lemma {:induction false} PutKeepsNamesDistinct(fs: seq<File>, name: string, content: Content)
    requires DistinctNames(fs)
    ensures DistinctNames(Put(fs, name, content))
  {
    if fs != [] {
      DistinctTail(fs);
      if fs[0].name != name {
        PutKeepsNamesDistinct(fs[1..], name, content);
        DistinctCons(fs[0], Put(fs[1..], name, content));
      } else {
        DistinctCons(File(name, content), fs[1..]);
      }
    }
  }

  /** In a directory, writing a name that exists replaces that file: the
      name then holds only the new content. */
  lemma {:induction false} PutOverwrites(fs: seq<File>, name: string, content: Content)
    requires DistinctNames(fs)
    ensures forall f | f in Put(fs, name, content) && f.name == name :: f == File(name, content)
  {
    if fs != [] {
      DistinctTail(fs);
      if fs[0].name != name {
        PutOverwrites(fs[1..], name, content);
      }
    }
  }

  /** Writing an existing name keeps the number of files; a new name adds one. */
  lemma {:induction false} PutSize(fs: seq<File>, name: string, content: Content)
    ensures |Put(fs, name, content)| == if exists f | f in fs :: f.name == name then |fs| else |fs| + 1
  {
    if fs != [] && fs[0].name != name {
      PutSize(fs[1..], name, content);
      assert (exists f | f in fs :: f.name == name) == (exists f | f in fs[1..] :: f.name == name) by {
        if exists f | f in fs :: f.name == name {
          var f :| f in fs && f.name == name;
          assert f in fs[1..];
        }
      }
    }
  }

  /** `save_weekly_data(data)` at moment `now`.  `written` is whether opening
      and writing the file succeeded; a failure is logged and changes
      nothing, and a missing directory makes the write fail. */
  function Save(dir: Directory, now: Timestamp, data: Value, written: bool): (r: Directory)
    requires ValidTimestamp(now)
    ensures !written ==> r == dir
    ensures dir.Unlistable? ==> r == dir
  {
    match dir
    case Unlistable => Unlistable
    case Listing(fs) => if written then Listing(Put(fs, FileName(now), Parsed(data))) else dir
  }

  /** If every file in the store was saved before `now`, the next start-up
      reloads what was saved at `now`. */
  lemma {:induction false} SaveThenLoad(fs: seq<File>, saved: seq<Timestamp>, now: Timestamp, data: Value)
    requires ValidTimestamp(now)
    requires |saved| == |fs|
    requires forall i | 0 <= i < |fs| :: ValidTimestamp(saved[i]) && fs[i].name == FileName(saved[i])
    requires forall i | 0 <= i < |fs| :: Earlier(saved[i], now)
    ensures LoadPrevious(Save(Listing(fs), now, data, true)) == data
  {
    var name := FileName(now);
    forall i | 0 <= i < |fs| ensures Less(fs[i].name, name) {
      FileNameOrder(saved[i], now);
    }
    forall f | f in fs ensures f.name != name {
      var i :| 0 <= i < |fs| && fs[i] == f;
      Irreflexive(name);
    }
    var fs' := fs + [File(name, Parsed(data))];
    assert Save(Listing(fs), now, data, true) == Listing(fs');
    LoadPreviousReadsGreatest(fs', |fs|);
  }
}
