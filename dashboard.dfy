/** The dashboard's aggregations: teachers tallied by the region of their school,
    the per-status counts, and the monthly activity trend of mentoring visits,
    journals and PLC activities since six months ago. */
module Dashboard {
  import opened Common
  import opened Tally

  // ---------------------------------------------------------------
  // getOverallStats
  // ---------------------------------------------------------------

  /** `teachersWithSchool.reduce(...)`: each teacher's school region counted once. */
  method TeachersByRegion(regions: seq<string>) returns (keys: seq<string>, counts: map<string, nat>)
    ensures Tallied(keys, counts, regions)
  {
    keys, counts := [], map[];
    var i := 0;
    assert [] + regions[..0] == [];
    while i < |regions|
      invariant 0 <= i <= |regions|
      invariant Tallied(keys, counts, [] + regions[..i])
    {
      TallyStep(keys, counts, [], regions, i);
      keys, counts := Bump(keys, counts, regions[i]).0, Bump(keys, counts, regions[i]).1;
      i := i + 1;
    }
    assert [] + regions[..i] == regions;
  }

  /** The region tallies add up to the number of teachers. */
  lemma RegionCountsAddUp(regions: seq<string>, keys: seq<string>, counts: map<string, nat>)
    requires Tallied(keys, counts, regions)
    ensures SumCounts(keys, regions) == |regions|
  {
    CountsAddUp(regions);
  }

  /** One row of `groupBy({ by: ['status'], _count: true })`. */
  datatype StatusRow = StatusRow(status: string, count: nat)

  /** The row for `status` is not followed by another row for it. */
  predicate LastFor(rows: seq<StatusRow>, j: int, n: int) {
    0 <= j < n <= |rows| && forall l :: j < l < n ==> rows[l].status != rows[j].status
  }

  /** `teachersByStatus.reduce((acc, item) => { acc[item.status] = item._count; ... })`. */
  method TeachersByStatus(rows: seq<StatusRow>) returns (m: map<string, nat>)
    ensures forall s :: s in m <==> exists j :: 0 <= j < |rows| && rows[j].status == s
    ensures forall j :: LastFor(rows, j, |rows|) ==> m[rows[j].status] == rows[j].count
  {
    m := map[];
    var i := 0;
    while i < |rows|
      invariant 0 <= i <= |rows|
      invariant forall s :: s in m <==> exists j :: 0 <= j < i && rows[j].status == s
      invariant forall j :: LastFor(rows, j, i) ==> m[rows[j].status] == rows[j].count
    {
      m := m[rows[i].status := rows[i].count];
      i := i + 1;
    }
  }

  /** Grouped statuses are distinct, so every status maps to its own row's count. */
  lemma StatusCountsDistinct(rows: seq<StatusRow>, j: nat)
    requires j < |rows|
    requires forall a, b :: 0 <= a < b < |rows| ==> rows[a].status != rows[b].status
    ensures LastFor(rows, j, |rows|)
  {
  }

  // ---------------------------------------------------------------
  // The six-month cutoff of getMonthlyTrends
  // ---------------------------------------------------------------

  datatype Date = Date(year: int, month: int, day: int)

  predicate LeapYear(y: int) {
    (y % 4 == 0 && y % 100 != 0) || y % 400 == 0
  }

  function DaysInMonth(y: int, m: int): (n: int)
    requires 1 <= m <= 12
    ensures 28 <= n <= 31
  {
    if m == 2 then (if LeapYear(y) then 29 else 28)
    else if m == 4 || m == 6 || m == 9 || m == 11 then 30
    else 31
  }

  predicate ValidDate(d: Date) {
    1 <= d.month <= 12 && 1 <= d.day <= DaysInMonth(d.year, d.month)
  }

  /** Months since year 0, to compare month positions. */
  function MonthIndex(d: Date): int {
    d.year * 12 + d.month - 1
  }

  /** `d.setMonth(d.getMonth() - 6)`: the same day six months earlier, rolled over into the next
      month when that month is too short, as JavaScript dates do. */
  function SixMonthsAgo(now: Date): (r: Date)
    requires ValidDate(now)
    ensures ValidDate(r)
  {
    var y := if now.month > 6 then now.year else now.year - 1;
    var m := if now.month > 6 then now.month - 6 else now.month + 6;
    var len := DaysInMonth(y, m);
    if now.day <= len then Date(y, m, now.day)
    else if m == 12 then Date(y + 1, 1, now.day - len)
    else Date(y, m + 1, now.day - len)
  }

  /** The cutoff is the same day six months back, or, when that month has no such day, one of the
      first three days of the month after. */
  lemma SixMonthsAgoPosition(now: Date)
    requires ValidDate(now)
    ensures var r := SixMonthsAgo(now);
      (MonthIndex(r) == MonthIndex(now) - 6 && r.day == now.day) ||
      (MonthIndex(r) == MonthIndex(now) - 5 && 1 <= r.day <= 3 && r.day < now.day)
  {
  }

  predicate DateLe(a: Date, b: Date) {
    a.year < b.year || (a.year == b.year && (a.month < b.month || (a.month == b.month && a.day <= b.day)))
  }

  // ---------------------------------------------------------------
  // Month buckets
  // ---------------------------------------------------------------

  /** `date.toISOString().slice(0, 7)` for a four-digit year. */
  function MonthKey(d: Date): string
    requires 0 <= d.year && 1 <= d.month <= 12
  {
    PadNat(d.year, 4) + "-" + PadNat(d.month, 2)
  }

  /** The month keys of the dates on or after the cutoff, in query order. */
  function DateKeys(dates: seq<Date>, cutoff: Date): seq<string>
    requires forall i :: 0 <= i < |dates| ==> 0 <= dates[i].year && 1 <= dates[i].month <= 12
  {
    if dates == [] then []
    else
      var d := dates[|dates| - 1];
      DateKeys(dates[..|dates| - 1], cutoff) + (if DateLe(cutoff, d) then [MonthKey(d)] else [])
  }

  datatype JournalRow = JournalRow(createdAt: Date, month: string)

  /** The stored `month` of the journals created on or after the cutoff. */
  function JournalKeys(journals: seq<JournalRow>, cutoff: Date): seq<string> {
    if journals == [] then []
    else
      var j := journals[|journals| - 1];
      JournalKeys(journals[..|journals| - 1], cutoff) + (if DateLe(cutoff, j.createdAt) then [j.month] else [])
  }

  datatype Kind = Visit | Journal | Plc

  datatype Bucket = Bucket(visits: nat, journals: nat, plc: nat)

  function KeysOf(entries: seq<(Kind, string)>): (ks: seq<string>)
    ensures |ks| == |entries| && forall i :: 0 <= i < |entries| ==> ks[i] == entries[i].1
  {
    seq(|entries|, i requires 0 <= i < |entries| => entries[i].1)
  }

  /** A month's bucket: its entries of each kind. */
  function BucketAt(entries: seq<(Kind, string)>, x: string): Bucket {
    Bucket(Count(entries, (Visit, x)), Count(entries, (Journal, x)), Count(entries, (Plc, x)))
  }

  /** The state of `monthlyData` and its month order after the tagged month keys `entries`: the
      months in first-seen order, and per month the number of entries of each kind. */
  ghost predicate Counted(data: map<string, Bucket>, keys: seq<string>, entries: seq<(Kind, string)>) {
    keys == Dedup(KeysOf(entries)) &&
    (forall k :: k in data <==> k in KeysOf(entries)) &&
    (forall k :: k in data ==> data[k] == BucketAt(entries, k))
  }

  /** `if (!monthlyData[month]) monthlyData[month] = {0, 0, 0}; monthlyData[month].<kind>++`. */
  function BumpBucket(data: map<string, Bucket>, kind: Kind, k: string): map<string, Bucket> {
    var b := if k in data then data[k] else Bucket(0, 0, 0);
    data[k := match kind
      case Visit => b.(visits := b.visits + 1)
      case Journal => b.(journals := b.journals + 1)
      case Plc => b.(plc := b.plc + 1)]
  }

  lemma AbsentUncounted(entries: seq<(Kind, string)>, kind: Kind, k: string)
    requires k !in KeysOf(entries)
    ensures Count(entries, (kind, k)) == 0
  {
  }

  /** The buckets and the month order after one more month key of the given kind. */
  function Bumped(data: map<string, Bucket>, keys: seq<string>, kind: Kind, k: string): (map<string, Bucket>, seq<string>) {
    (BumpBucket(data, kind, k), if k in data then keys else keys + [k])
  }

  lemma KeysOfSnoc(entries: seq<(Kind, string)>, e: (Kind, string))
    ensures KeysOf(entries + [e]) == KeysOf(entries) + [e.1]
  {
    assert |KeysOf(entries + [e])| == |KeysOf(entries) + [e.1]|;
  }

  lemma DedupSnocKeys(keys: seq<string>, entries: seq<(Kind, string)>, kind: Kind, k: string)
    requires keys == Dedup(KeysOf(entries))
    ensures Dedup(KeysOf(entries + [(kind, k)])) == if k in KeysOf(entries) then keys else keys + [k]
  {
    var es := entries + [(kind, k)];
    KeysOfSnoc(entries, (kind, k));
    assert KeysOf(es)[..|es| - 1] == KeysOf(entries);
    if k in KeysOf(entries) {
      var i :| 0 <= i < |KeysOf(entries)| && KeysOf(entries)[i] == k;
    }
  }

  lemma CountedSnoc(data: map<string, Bucket>, keys: seq<string>, entries: seq<(Kind, string)>, kind: Kind, k: string)
    requires Counted(data, keys, entries)
    ensures Counted(Bumped(data, keys, kind, k).0, Bumped(data, keys, kind, k).1, entries + [(kind, k)])
  {
    var es := entries + [(kind, k)];
    var data' := BumpBucket(data, kind, k);
    DedupSnocKeys(keys, entries, kind, k);
    KeysOfSnoc(entries, (kind, k));
    assert forall x :: x in data' <==> x in KeysOf(es);
    if k !in data {
      AbsentUncounted(entries, Visit, k);
      AbsentUncounted(entries, Journal, k);
      AbsentUncounted(entries, Plc, k);
    }
    forall x | x in data'
      ensures data'[x] == BucketAt(es, x)
    {
      BumpedBucket(data, entries, kind, k, x);
    }
  }

  lemma BumpedBucket(data: map<string, Bucket>, entries: seq<(Kind, string)>, kind: Kind, k: string, x: string)
    requires x in data ==> data[x] == BucketAt(entries, x)
    requires k in data ==> data[k] == BucketAt(entries, k)
    requires k !in data ==> BucketAt(entries, k) == Bucket(0, 0, 0)
    requires x in BumpBucket(data, kind, k)
    ensures BumpBucket(data, kind, k)[x] == BucketAt(entries + [(kind, k)], x)
  {
    CountSnoc(entries, (kind, k), (Visit, x));
    CountSnoc(entries, (kind, k), (Journal, x));
    CountSnoc(entries, (kind, k), (Plc, x));
  }

  lemma CountSnoc<T>(xs: seq<T>, e: T, x: T)
    ensures Count(xs + [e], x) == Count(xs, x) + if e == x then 1 else 0
  {
    assert (xs + [e])[..|xs|] == xs;
  }

  /** The tagged entries of one `forEach`. */
  function Tagged(kind: Kind, ks: seq<string>): (r: seq<(Kind, string)>)
    ensures |r| == |ks| && forall i :: 0 <= i < |ks| ==> r[i] == (kind, ks[i])
  {
    seq(|ks|, i requires 0 <= i < |ks| => (kind, ks[i]))
  }

  lemma TaggedStep(before: seq<(Kind, string)>, kind: Kind, ks: seq<string>, i: nat)
    requires i < |ks|
    ensures before + Tagged(kind, ks[..i + 1]) == before + Tagged(kind, ks[..i]) + [(kind, ks[i])]
  {
    var a, b := Tagged(kind, ks[..i + 1]), Tagged(kind, ks[..i]) + [(kind, ks[i])];
    assert |a| == |b|;
    forall j | 0 <= j < |a|
      ensures a[j] == b[j]
    {
    }
    assert a == b;
  }

  /** One of the three `forEach` loops, counting each month key into the kind's field. */
  method CountInto(data: map<string, Bucket>, keys: seq<string>, ghost before: seq<(Kind, string)>,
                   kind: Kind, ks: seq<string>)
    returns (data': map<string, Bucket>, keys': seq<string>)
    requires Counted(data, keys, before)
    ensures Counted(data', keys', before + Tagged(kind, ks))
  {
    data', keys' := data, keys;
    var i := 0;
    assert before + Tagged(kind, ks[..0]) == before;
    while i < |ks|
      invariant 0 <= i <= |ks|
      invariant Counted(data', keys', before + Tagged(kind, ks[..i]))
    {
      CountStep(data', keys', before, kind, ks, i);
      data', keys' := Bumped(data', keys', kind, ks[i]).0, Bumped(data', keys', kind, ks[i]).1;
      i := i + 1;
    }
    assert ks[..i] == ks;
  }

  lemma CountStep(data: map<string, Bucket>, keys: seq<string>, before: seq<(Kind, string)>,
                  kind: Kind, ks: seq<string>, i: nat)
    requires i < |ks| && Counted(data, keys, before + Tagged(kind, ks[..i]))
    ensures Counted(Bumped(data, keys, kind, ks[i]).0, Bumped(data, keys, kind, ks[i]).1,
                    before + Tagged(kind, ks[..i + 1]))
  {
    CountedSnoc(data, keys, before + Tagged(kind, ks[..i]), kind, ks[i]);
    TaggedStep(before, kind, ks, i);
  }

  // ---------------------------------------------------------------
  // Sorting the months
  // ---------------------------------------------------------------

  predicate Sorted(s: seq<string>) {
    forall i :: 0 < i < |s| ==> LexLe(s[i - 1], s[i])
  }

  function Insert(x: string, s: seq<string>): (r: seq<string>)
    requires Sorted(s)
    ensures Sorted(r)
    ensures multiset(r) == multiset(s) + multiset{x}
    ensures |r| == |s| + 1 && (r[0] == x || (s != [] && r[0] == s[0]))
  {
    if s == [] then [x]
    else if LexLe(x, s[0]) then [x] + s
    else
      LexTotal(x, s[0]);
      var rest := Insert(x, s[1..]);
      assert s == [s[0]] + s[1..];
      [s[0]] + rest
  }

  /** `sort(([a], [b]) => a.localeCompare(b))`, as an insertion sort. */
  function SortKeys(s: seq<string>): (r: seq<string>)
    ensures Sorted(r)
    ensures multiset(r) == multiset(s)
  {
    if s == [] then []
    else
      assert s == [s[0]] + s[1..];
      Insert(s[0], SortKeys(s[1..]))
  }

  lemma {:induction false} DistinctOnce(s: seq<string>, x: string)
    requires NoDuplicates(s)
    ensures multiset(s)[x] <= 1
  {
    if s != [] {
      var n := |s| - 1;
      assert s == s[..n] + [s[n]];
      DistinctOnce(s[..n], x);
      assert s[n] !in s[..n];
    }
  }

  lemma TwiceCountsTwo(s: seq<string>, i: nat, j: nat)
    requires i < j < |s| && s[i] == s[j]
    ensures multiset(s)[s[i]] >= 2
  {
    assert s == s[..j] + [s[j]] + s[j + 1..];
    assert s[..j][i] == s[i];
  }

  /** Sorting distinct keys keeps them distinct. */
  lemma SortKeysDistinct(s: seq<string>)
    requires NoDuplicates(s)
    ensures NoDuplicates(SortKeys(s))
  {
    var r := SortKeys(s);
    forall i, j | 0 <= i < j < |r|
      ensures r[i] != r[j]
    {
      DistinctOnce(s, r[i]);
      if r[i] == r[j] {
        TwiceCountsTwo(r, i, j);
      }
    }
  }

  // ---------------------------------------------------------------
  // getMonthlyTrends
  // ---------------------------------------------------------------

  datatype MonthRow = MonthRow(month: string, visits: nat, journals: nat, plc: nat)

  predicate ValidDates(dates: seq<Date>) {
    forall i :: 0 <= i < |dates| ==> ValidDate(dates[i]) && 0 <= dates[i].year
  }

  /** `getMonthlyTrends`: the fetched visits, journals and PLC activities bucketed by month, one
      row per month in ascending order. */
  /** The three `forEach` loops of `getMonthlyTrends`, one after the other. */
  method BucketMonths(vs: seq<string>, js: seq<string>, ps: seq<string>)
    returns (data: map<string, Bucket>, keys: seq<string>)
    ensures Counted(data, keys, Tagged(Visit, vs) + Tagged(Journal, js) + Tagged(Plc, ps))
  {
    data, keys := map[], [];
    assert KeysOf([]) == [];
    data, keys := CountInto(data, keys, [], Visit, vs);
    assert [] + Tagged(Visit, vs) == Tagged(Visit, vs);
    data, keys := CountInto(data, keys, Tagged(Visit, vs), Journal, js);
    data, keys := CountInto(data, keys, Tagged(Visit, vs) + Tagged(Journal, js), Plc, ps);
  }

  /** The rows of the trend: one per month any of the three lists mentions, each counting that
      month's visits, journals and PLC activities. */
  ghost predicate TrendRows(rows: seq<MonthRow>, vs: seq<string>, js: seq<string>, ps: seq<string>) {
    (forall i :: 0 <= i < |rows| ==>
      rows[i].visits == Count(vs, rows[i].month) && rows[i].journals == Count(js, rows[i].month) &&
      rows[i].plc == Count(ps, rows[i].month)) &&
    (forall k :: (exists i :: 0 <= i < |rows| && rows[i].month == k) <==> k in vs || k in js || k in ps)
  }

  /** `getMonthlyTrends`: the fetched visits, journals and PLC activities since six months ago,
      bucketed by month, one row per month in ascending order. */
  method GetMonthlyTrends(now: Date, visits: seq<Date>, journals: seq<JournalRow>, plc: seq<Date>)
    returns (rows: seq<MonthRow>)
    requires ValidDate(now) && ValidDates(visits) && ValidDates(plc)
    ensures TrendRows(rows, DateKeys(visits, SixMonthsAgo(now)), JournalKeys(journals, SixMonthsAgo(now)),
                      DateKeys(plc, SixMonthsAgo(now)))
    ensures forall i :: 0 < i < |rows| ==> LexLe(rows[i - 1].month, rows[i].month)
    ensures NoDuplicates(RowMonths(rows))
  {
    var cutoff := SixMonthsAgo(now);
    var vs, js, ps := DateKeys(visits, cutoff), JournalKeys(journals, cutoff), DateKeys(plc, cutoff);
    var data, keys := BucketMonths(vs, js, ps);
    var months := SortKeys(keys);
    SortKeysDistinct(keys);
    TrendFacts(data, keys, vs, js, ps, months);
    RowsFacts(data, vs, js, ps, months);
    rows := MonthRows(data, months);
  }

  /** `Object.entries(monthlyData).map(...)` over the sorted months. */
  function MonthRows(data: map<string, Bucket>, months: seq<string>): (rows: seq<MonthRow>)
    requires forall i :: 0 <= i < |months| ==> months[i] in data
    ensures |rows| == |months|
    ensures forall i :: 0 <= i < |rows| ==>
      rows[i] == MonthRow(months[i], data[months[i]].visits, data[months[i]].journals, data[months[i]].plc)
  {
    seq(|months|, i requires 0 <= i < |months| =>
      MonthRow(months[i], data[months[i]].visits, data[months[i]].journals, data[months[i]].plc))
  }

  /** The facts the trend rows rest on: the sorted keys are the months of all three lists, and each
      bucket counts its kind's occurrences. */
  lemma TrendFacts(data: map<string, Bucket>, keys: seq<string>, vs: seq<string>, js: seq<string>,
                   ps: seq<string>, months: seq<string>)
    requires Counted(data, keys, Tagged(Visit, vs) + Tagged(Journal, js) + Tagged(Plc, ps))
    requires multiset(months) == multiset(keys)
    ensures forall i :: 0 <= i < |months| ==> months[i] in data
    ensures forall i :: 0 <= i < |months| ==>
      data[months[i]] == Bucket(Count(vs, months[i]), Count(js, months[i]), Count(ps, months[i]))
    ensures forall k :: k in months <==> k in vs || k in js || k in ps
  {
    var entries := Tagged(Visit, vs) + Tagged(Journal, js) + Tagged(Plc, ps);
    forall k
      ensures k in months <==> k in vs || k in js || k in ps
    {
      assert k in months <==> k in multiset(months);
      assert k in keys <==> k in multiset(keys);
      KeysOfTagged(vs, js, ps, k);
    }
    forall i | 0 <= i < |months|
      ensures months[i] in data
      ensures data[months[i]] == Bucket(Count(vs, months[i]), Count(js, months[i]), Count(ps, months[i]))
    {
      var k := months[i];
      KeysOfTagged(vs, js, ps, k);
      assert k in Dedup(KeysOf(entries)) ==> k in KeysOf(entries);
      TaggedCounts(vs, js, ps, k);
    }
  }

  /** Rows built from such buckets are the trend, in the order of the months. */
  lemma RowsFacts(data: map<string, Bucket>, vs: seq<string>, js: seq<string>, ps: seq<string>, months: seq<string>)
    requires forall i :: 0 <= i < |months| ==> months[i] in data
    requires forall i :: 0 <= i < |months| ==>
      data[months[i]] == Bucket(Count(vs, months[i]), Count(js, months[i]), Count(ps, months[i]))
    requires forall k :: k in months <==> k in vs || k in js || k in ps
    ensures TrendRows(MonthRows(data, months), vs, js, ps)
    ensures RowMonths(MonthRows(data, months)) == months
  {
    var rows := MonthRows(data, months);
    assert RowMonths(rows) == months;
    forall k
      ensures (exists i :: 0 <= i < |rows| && rows[i].month == k) <==> k in months
    {
      if k in months {
        var i :| 0 <= i < |months| && months[i] == k;
        assert rows[i].month == k;
      }
    }
  }

  function RowMonths(rows: seq<MonthRow>): (ms: seq<string>)
    ensures |ms| == |rows| && forall i :: 0 <= i < |rows| ==> ms[i] == rows[i].month
  {
    seq(|rows|, i requires 0 <= i < |rows| => rows[i].month)
  }

  lemma KeysOfTagged(vs: seq<string>, js: seq<string>, ps: seq<string>, k: string)
    ensures k in Dedup(KeysOf(Tagged(Visit, vs) + Tagged(Journal, js) + Tagged(Plc, ps))) <==>
      k in vs || k in js || k in ps
  {
    var es := Tagged(Visit, vs) + Tagged(Journal, js) + Tagged(Plc, ps);
    var ks := KeysOf(es);
    assert ks == vs + js + ps;
    if k in ks {
      var i :| 0 <= i < |ks| && ks[i] == k;
    }
  }

  lemma {:induction false} CountTagged(kind: Kind, other: Kind, ks: seq<string>, k: string)
    ensures Count(Tagged(kind, ks), (kind, k)) == Count(ks, k)
    ensures other != kind ==> Count(Tagged(kind, ks), (other, k)) == 0
  {
    if ks != [] {
      var n := |ks| - 1;
      assert Tagged(kind, ks)[..n] == Tagged(kind, ks[..n]);
      CountTagged(kind, other, ks[..n], k);
    }
  }

  lemma {:induction false} CountAppend<T>(a: seq<T>, b: seq<T>, x: T)
    ensures Count(a + b, x) == Count(a, x) + Count(b, x)
    decreases |b|
  {
    if b != [] {
      var n := |b| - 1;
      assert (a + b)[..|a + b| - 1] == a + b[..n];
      CountAppend(a, b[..n], x);
    } else {
      assert a + b == a;
    }
  }

  lemma TaggedCounts(vs: seq<string>, js: seq<string>, ps: seq<string>, k: string)
    ensures var es := Tagged(Visit, vs) + Tagged(Journal, js) + Tagged(Plc, ps);
      Count(es, (Visit, k)) == Count(vs, k) && Count(es, (Journal, k)) == Count(js, k) &&
      Count(es, (Plc, k)) == Count(ps, k)
  {
    var a, b, c := Tagged(Visit, vs), Tagged(Journal, js), Tagged(Plc, ps);
    CountAppend(a + b, c, (Visit, k));
    CountAppend(a, b, (Visit, k));
    CountAppend(a + b, c, (Journal, k));
    CountAppend(a, b, (Journal, k));
    CountAppend(a + b, c, (Plc, k));
    CountAppend(a, b, (Plc, k));
    CountTagged(Visit, Journal, vs, k);
    CountTagged(Visit, Plc, vs, k);
    CountTagged(Journal, Visit, js, k);
    CountTagged(Journal, Plc, js, k);
    CountTagged(Plc, Visit, ps, k);
    CountTagged(Plc, Journal, ps, k);
  }

  /** A row's count of one kind. */
  function RowCount(r: MonthRow, kind: Kind): nat {
    match kind
    case Visit => r.visits
    case Journal => r.journals
    case Plc => r.plc
  }

  function SumRows(rows: seq<MonthRow>, kind: Kind): nat {
    if rows == [] then 0 else SumRows(rows[..|rows| - 1], kind) + RowCount(rows[|rows| - 1], kind)
  }

  /** Every fetched record lands in exactly one month row: each kind's counts add up to the number
      of records of that kind since the cutoff. */
  lemma TrendTotals(rows: seq<MonthRow>, vs: seq<string>, js: seq<string>, ps: seq<string>)
    requires TrendRows(rows, vs, js, ps) && NoDuplicates(RowMonths(rows))
    ensures SumRows(rows, Visit) == |vs|
    ensures SumRows(rows, Journal) == |js|
    ensures SumRows(rows, Plc) == |ps|
  {
    KindAddsUp(rows, Visit, vs);
    KindAddsUp(rows, Journal, js);
    KindAddsUp(rows, Plc, ps);
  }

  lemma KindAddsUp(rows: seq<MonthRow>, kind: Kind, xs: seq<string>)
    requires forall i :: 0 <= i < |rows| ==> RowCount(rows[i], kind) == Count(xs, rows[i].month)
    requires NoDuplicates(RowMonths(rows))
    requires forall k :: k in xs ==> exists i :: 0 <= i < |rows| && rows[i].month == k
    ensures SumRows(rows, kind) == |xs|
  {
    var months := RowMonths(rows);
    forall i | 0 <= i < |xs|
      ensures xs[i] in months
    {
      assert xs[i] in xs;
      var j :| 0 <= j < |rows| && rows[j].month == xs[i];
      assert months[j] == xs[i];
    }
    CountsCover(months, xs);
    SumMatches(rows, kind, xs);
  }

  lemma {:induction false} SumMatches(rows: seq<MonthRow>, kind: Kind, xs: seq<string>)
    requires forall i :: 0 <= i < |rows| ==> RowCount(rows[i], kind) == Count(xs, rows[i].month)
    ensures SumRows(rows, kind) == SumCounts(RowMonths(rows), xs)
  {
    if rows != [] {
      var n := |rows| - 1;
      assert RowMonths(rows)[..n] == RowMonths(rows[..n]);
      SumMatches(rows[..n], kind, xs);
    }
  }
}
