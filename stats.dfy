/** The statistics screen: per-day totals and invoice counts, newest day first. */
module Stats {
  import opened InvoiceTypes
  import opened Strings
  import opened Storage

  /** One row of the statistics list. */
  datatype DayStat = DayStat(date: string, total: int, count: nat)

  /** The running `{ total, count }` record kept per day while grouping. */
  datatype Tally = Tally(total: int, count: nat)

  // ---------------------------------------------------------------------------
  // Reference definitions, over the invoices in list order
  // ---------------------------------------------------------------------------

  /** The day keys that occur in `invoices`. */
  function Days(invoices: seq<Invoice>): set<string> {
    if invoices == [] then {}
    else Days(invoices[..|invoices| - 1]) + {DayKey(invoices[|invoices| - 1].createdAt)}
  }

  /** The number of invoices of day `d`. */
  function CountOn(invoices: seq<Invoice>, d: string): nat {
    if invoices == [] then 0
    else CountOn(invoices[..|invoices| - 1], d)
         + (if DayKey(invoices[|invoices| - 1].createdAt) == d then 1 else 0)
  }

  /** The sum of `totalAmount` over the invoices of day `d`. */
  function TotalOn(invoices: seq<Invoice>, d: string): int {
    if invoices == [] then 0
    else TotalOn(invoices[..|invoices| - 1], d)
         + (if DayKey(invoices[|invoices| - 1].createdAt) == d then invoices[|invoices| - 1].totalAmount else 0)
  }

  /** The sum of `totalAmount` over all invoices. */
  function AmountSum(invoices: seq<Invoice>): int {
    if invoices == [] then 0
    else AmountSum(invoices[..|invoices| - 1]) + invoices[|invoices| - 1].totalAmount
  }

  /** The sums of the `count` and of the `total` columns of a statistics list. */
  function CountSum(stats: seq<DayStat>): nat {
    if stats == [] then 0 else stats[0].count + CountSum(stats[1..])
  }

  function TotalSum(stats: seq<DayStat>): int {
    if stats == [] then 0 else stats[0].total + TotalSum(stats[1..])
  }

  /** Each day appears at most once. */
  ghost predicate DistinctDates(stats: seq<DayStat>) {
    forall i, j :: 0 <= i < j < |stats| ==> stats[i].date != stats[j].date
  }

  /** Strictly descending by date, the order `b.date.localeCompare(a.date)` sorts into. */
  ghost predicate DescendingByDate(stats: seq<DayStat>) {
    forall i, j :: 0 <= i < j < |stats| ==> StrLess(stats[j].date, stats[i].date)
  }

  /** Some row of `stats` is for day `d`. */
  ghost predicate HasDate(stats: seq<DayStat>, d: string) {
    exists i :: 0 <= i < |stats| && stats[i].date == d
  }

  /** `stats` is the per-day summary of `invoices`: one row per day that occurs,
      newest first, each with that day's invoice count and amount. */
  ghost predicate Summarizes(stats: seq<DayStat>, invoices: seq<Invoice>) {
    && DescendingByDate(stats)
    && (forall i :: 0 <= i < |stats| ==>
          && stats[i].date in Days(invoices)
          && stats[i].count == CountOn(invoices, stats[i].date)
          && stats[i].total == TotalOn(invoices, stats[i].date))
    && (forall d :: d in Days(invoices) ==> HasDate(stats, d))
  }

  // ---------------------------------------------------------------------------
  // Facts about the reference definitions
  // ---------------------------------------------------------------------------

  /** A key is a day of the list exactly when some invoice was created on it. */
  lemma {:induction false} DaysAreDayKeys(invoices: seq<Invoice>, d: string)
    ensures d in Days(invoices) <==> exists i :: 0 <= i < |invoices| && DayKey(invoices[i].createdAt) == d
    decreases |invoices|
  {
    if invoices != [] {
      var init := invoices[..|invoices| - 1];
      DaysAreDayKeys(init, d);
      if exists i :: 0 <= i < |invoices| && DayKey(invoices[i].createdAt) == d {
        var i :| 0 <= i < |invoices| && DayKey(invoices[i].createdAt) == d;
        if i < |init| {
          assert init[i] == invoices[i];
        }
      }
      if exists i :: 0 <= i < |init| && DayKey(init[i].createdAt) == d {
        var i :| 0 <= i < |init| && DayKey(init[i].createdAt) == d;
        assert invoices[i] == init[i];
      }
    }
  }

  /** A day has invoices exactly when it is one of the days; a day that is not
      one of them has no invoices and amount 0. */
  lemma {:induction false} CountPositiveIffDay(invoices: seq<Invoice>, d: string)
    ensures CountOn(invoices, d) > 0 <==> d in Days(invoices)
    ensures d !in Days(invoices) ==> TotalOn(invoices, d) == 0
    decreases |invoices|
  {
    if invoices != [] {
      CountPositiveIffDay(invoices[..|invoices| - 1], d);
    }
  }

  // The column sums taken day by day: the count and amount of `invoices` on
  // each date listed in `stats`, whatever `stats` itself records.
  function CountOver(invoices: seq<Invoice>, stats: seq<DayStat>): nat {
    if stats == [] then 0 else CountOn(invoices, stats[0].date) + CountOver(invoices, stats[1..])
  }

  function TotalOver(invoices: seq<Invoice>, stats: seq<DayStat>): int {
    if stats == [] then 0 else TotalOn(invoices, stats[0].date) + TotalOver(invoices, stats[1..])
  }

  lemma {:induction false} OverNothing(stats: seq<DayStat>)
    ensures CountOver([], stats) == 0 && TotalOver([], stats) == 0
  {
    if stats != [] {
      OverNothing(stats[1..]);
    }
  }

  /** Dropping the last invoice changes no day sum when its day is not listed. */
  lemma {:induction false} OverUnlisted(invoices: seq<Invoice>, stats: seq<DayStat>)
    requires invoices != []
    requires forall j :: 0 <= j < |stats| ==> stats[j].date != DayKey(invoices[|invoices| - 1].createdAt)
    ensures CountOver(invoices, stats) == CountOver(invoices[..|invoices| - 1], stats)
    ensures TotalOver(invoices, stats) == TotalOver(invoices[..|invoices| - 1], stats)
  {
    if stats != [] {
      OverUnlisted(invoices, stats[1..]);
    }
  }

  /** Dropping the last invoice lowers the day sums by exactly it when its day
      is listed once. */
  lemma {:induction false} OverListedOnce(invoices: seq<Invoice>, stats: seq<DayStat>, k: nat)
    requires invoices != [] && DistinctDates(stats)
    requires k < |stats| && stats[k].date == DayKey(invoices[|invoices| - 1].createdAt)
    ensures CountOver(invoices, stats) == CountOver(invoices[..|invoices| - 1], stats) + 1
    ensures TotalOver(invoices, stats)
         == TotalOver(invoices[..|invoices| - 1], stats) + invoices[|invoices| - 1].totalAmount
  {
    if k == 0 {
      OverUnlisted(invoices, stats[1..]);
    } else {
      OverListedOnce(invoices, stats[1..], k - 1);
    }
  }

  /** Grouping by day partitions the invoices: summed over a list naming every
      day once, the day counts add up to the number of invoices and the day
      amounts to the amount of all of them. */
  lemma {:induction false} DaysPartition(invoices: seq<Invoice>, stats: seq<DayStat>)
    requires DistinctDates(stats)
    requires forall d :: d in Days(invoices) ==> HasDate(stats, d)
    ensures CountOver(invoices, stats) == |invoices|
    ensures TotalOver(invoices, stats) == AmountSum(invoices)
    decreases |invoices|
  {
    if invoices == [] {
      OverNothing(stats);
    } else {
      var init := invoices[..|invoices| - 1];
      var key := DayKey(invoices[|invoices| - 1].createdAt);
      assert Days(invoices) == Days(init) + {key};
      DaysPartition(init, stats);
      var k :| 0 <= k < |stats| && stats[k].date == key;
      OverListedOnce(invoices, stats, k);
    }
  }

  lemma {:induction false} ColumnsAreDaySums(stats: seq<DayStat>, invoices: seq<Invoice>)
    requires forall i :: 0 <= i < |stats| ==>
      stats[i].count == CountOn(invoices, stats[i].date) && stats[i].total == TotalOn(invoices, stats[i].date)
    ensures CountSum(stats) == CountOver(invoices, stats)
    ensures TotalSum(stats) == TotalOver(invoices, stats)
  {
    if stats != [] {
      ColumnsAreDaySums(stats[1..], invoices);
    }
  }

  /** A summary lists each day once: its dates are strictly descending. */
  lemma SummaryDatesDistinct(stats: seq<DayStat>, invoices: seq<Invoice>)
    requires Summarizes(stats, invoices)
    ensures DistinctDates(stats)
  {
    forall i, j | 0 <= i < j < |stats| ensures stats[i].date != stats[j].date {
      if stats[i].date == stats[j].date {
        StrLessIrreflexive(stats[i].date);
      }
    }
  }

  /** Conservation: a summary's counts add up to the number of invoices and its
      totals to the sum of their amounts. */
  lemma SummaryConserves(stats: seq<DayStat>, invoices: seq<Invoice>)
    requires Summarizes(stats, invoices)
    ensures CountSum(stats) == |invoices|
    ensures TotalSum(stats) == AmountSum(invoices)
  {
    SummaryDatesDistinct(stats, invoices);
    ColumnsAreDaySums(stats, invoices);
    DaysPartition(invoices, stats);
  }

  /** A summary is empty exactly when there are no invoices. */
  lemma SummaryEmptyIffNoInvoices(stats: seq<DayStat>, invoices: seq<Invoice>)
    requires Summarizes(stats, invoices)
    ensures stats == [] <==> invoices == []
  {
    if invoices != [] {
      var d := DayKey(invoices[0].createdAt);
      DaysAreDayKeys(invoices, d);
      assert d in Days(invoices);
      var j :| 0 <= j < |stats| && stats[j].date == d;
    }
    if stats != [] {
      DaysAreDayKeys(invoices, stats[0].date);
    }
  }

  /** Every date of `a` is a date of `b`. */
  ghost predicate DatesWithin(a: seq<DayStat>, b: seq<DayStat>) {
    forall i :: 0 <= i < |a| ==> HasDate(b, a[i].date)
  }

  /** Two such lists start with the same date: the latest one. */
  lemma SameFirstDate(a: seq<DayStat>, b: seq<DayStat>)
    requires DescendingByDate(a) && DescendingByDate(b)
    requires DatesWithin(a, b) && DatesWithin(b, a)
    requires a != [] && b != []
    ensures a[0].date == b[0].date
  {
    assert HasDate(b, a[0].date);
    assert HasDate(a, b[0].date);
    var j :| 0 <= j < |b| && b[j].date == a[0].date;
    var k :| 0 <= k < |a| && a[k].date == b[0].date;
    if j > 0 {
      if k > 0 {
        StrLessAsymmetric(a[k].date, a[0].date);
      } else {
        StrLessIrreflexive(a[0].date);
      }
    }
  }

  /** Past a shared first date, the rest of `a` lies within the rest of `b`. */
  lemma RestWithin(a: seq<DayStat>, b: seq<DayStat>)
    requires DescendingByDate(a) && DatesWithin(a, b)
    requires a != [] && b != [] && a[0].date == b[0].date
    ensures DatesWithin(a[1..], b[1..])
  {
    var a', b' := a[1..], b[1..];
    forall i | 0 <= i < |a'| ensures HasDate(b', a'[i].date) {
      assert HasDate(b, a[i + 1].date);
      var j :| 0 <= j < |b| && b[j].date == a[i + 1].date;
      if j == 0 {
        StrLessIrreflexive(a[0].date);
      }
      assert b'[j - 1] == b[j];
    }
  }

  /** Two lists, each strictly descending by date, that list the same dates
      list them in the same places. */
  lemma {:induction false} SameDatesSamePlaces(a: seq<DayStat>, b: seq<DayStat>)
    requires DescendingByDate(a) && DescendingByDate(b)
    requires DatesWithin(a, b) && DatesWithin(b, a)
    ensures |a| == |b| && forall i :: 0 <= i < |a| ==> a[i].date == b[i].date
    decreases |a|
  {
    if a != [] {
      assert HasDate(b, a[0].date);
    }
    if b != [] {
      assert HasDate(a, b[0].date);
    }
    if a != [] && b != [] {
      SameFirstDate(a, b);
      RestWithin(a, b);
      RestWithin(b, a);
      var a', b' := a[1..], b[1..];
      SameDatesSamePlaces(a', b');
      forall i | 0 < i < |a| ensures a[i].date == b[i].date {
        assert a[i] == a'[i - 1] && b[i] == b'[i - 1];
      }
    }
  }

  /** The summary of a list of invoices is unique: whatever order the entries
      were collected in, and however ties would be sorted, the result is the same. */
  lemma SummaryUnique(a: seq<DayStat>, b: seq<DayStat>, invoices: seq<Invoice>)
    requires Summarizes(a, invoices) && Summarizes(b, invoices)
    ensures a == b
  {
    SameDatesSamePlaces(a, b);
    forall i | 0 <= i < |a| ensures a[i] == b[i] {
      assert a[i].date == b[i].date;
    }
  }

  // ---------------------------------------------------------------------------
  // Sorting the rows by date, newest first
  // ---------------------------------------------------------------------------

  function InsertByDate(x: DayStat, s: seq<DayStat>): (r: seq<DayStat>)
    ensures multiset(r) == multiset(s) + multiset{x}
  {
    if s == [] || StrLess(s[0].date, x.date) then [x] + s
    else
      assert s == [s[0]] + s[1..];
      [s[0]] + InsertByDate(x, s[1..])
  }

  /** `stats.sort((a, b) => b.date.localeCompare(a.date))`. */
  function SortByDate(s: seq<DayStat>): (r: seq<DayStat>)
    ensures multiset(r) == multiset(s)
  {
    if s == [] then []
    else
      assert s == [s[0]] + s[1..];
      InsertByDate(s[0], SortByDate(s[1..]))
  }

  lemma {:induction false} InsertKeepsDescending(x: DayStat, s: seq<DayStat>)
    requires DescendingByDate(s)
    requires forall j :: 0 <= j < |s| ==> s[j].date != x.date
    ensures DescendingByDate(InsertByDate(x, s))
  {
    if s == [] || StrLess(s[0].date, x.date) {
      forall j | 0 <= j < |s| ensures StrLess(s[j].date, x.date) {
        if j > 0 {
          StrLessTransitive(s[j].date, s[0].date, x.date);
        }
      }
      var r := [x] + s;
      assert forall i, j :: 0 < i < j < |r| ==> r[i] == s[i - 1] && r[j] == s[j - 1];
    } else {
      StrLessTotal(x.date, s[0].date);
      var t := InsertByDate(x, s[1..]);
      InsertKeepsDescending(x, s[1..]);
      forall j | 0 <= j < |t| ensures StrLess(t[j].date, s[0].date) {
        assert t[j] in multiset(t);
        if t[j] != x {
          assert t[j] in multiset(s[1..]);
          var k :| 0 <= k < |s[1..]| && s[1..][k] == t[j];
          assert s[k + 1] == t[j];
        }
      }
      var r := [s[0]] + t;
      assert forall i :: 0 < i < |r| ==> r[i] == t[i - 1];
    }
  }

  lemma {:induction false} SortDescending(s: seq<DayStat>)
    requires DistinctDates(s)
    ensures DescendingByDate(SortByDate(s))
  {
    if s != [] {
      var t := SortByDate(s[1..]);
      SortDescending(s[1..]);
      forall j | 0 <= j < |t| ensures t[j].date != s[0].date {
        assert t[j] in multiset(t);
        var k :| 0 <= k < |s[1..]| && s[1..][k] == t[j];
        assert s[k + 1] == t[j];
      }
      InsertKeepsDescending(s[0], t);
    }
  }

  // ---------------------------------------------------------------------------
  // computeStats
  // ---------------------------------------------------------------------------

  /** `m` and `keys` hold the grouping of `invoices`: one tally per day key,
      and each key once. */
  ghost predicate Grouped(invoices: seq<Invoice>, keys: seq<string>, m: map<string, Tally>) {
    && m.Keys == Days(invoices)
    && (forall k :: k in keys <==> k in m)
    && (forall a, b :: 0 <= a < b < |keys| ==> keys[a] != keys[b])
    && (forall k :: k in m ==> m[k] == Tally(TotalOn(invoices, k), CountOn(invoices, k)))
  }

  /** Before the loop nothing is grouped. */
  lemma GroupedNothing(invoices: seq<Invoice>)
    ensures Grouped(invoices[..0], [], map[])
  {
    assert invoices[..0] == [];
  }

  /** One turn of the accumulation loop keeps the grouping right: `keys2`
      and `m2` are `keys` and `m` after invoice `i`, whose day key is `key`
      and whose day had tally `before`, is counted. */
  lemma GroupStep(invoices: seq<Invoice>, i: nat, keys: seq<string>, m: map<string, Tally>,
                  key: string, before: Tally, keys2: seq<string>, m2: map<string, Tally>)
    requires i < |invoices| && Grouped(invoices[..i], keys, m)
    requires key == DayKey(invoices[i].createdAt)
    requires before == if key in m then m[key] else Tally(0, 0)
    requires keys2 == if key in m then keys else keys + [key]
    requires m2 == m[key := Tally(before.total + invoices[i].totalAmount, before.count + 1)]
    ensures Grouped(invoices[..i + 1], keys2, m2)
  {
    PrefixStep(invoices, i);
    StepTallies(invoices, i, m, key, before, m2);
    if key !in m {
      AppendNewKey(keys, key);
    }
  }

  /** The tallies half of `GroupStep`. */
  lemma StepTallies(invoices: seq<Invoice>, i: nat, m: map<string, Tally>,
                    key: string, before: Tally, m2: map<string, Tally>)
    requires i < |invoices| && key == DayKey(invoices[i].createdAt)
    requires forall k :: k in m ==> m[k] == Tally(TotalOn(invoices[..i], k), CountOn(invoices[..i], k))
    requires m.Keys == Days(invoices[..i])
    requires before == if key in m then m[key] else Tally(0, 0)
    requires m2 == m[key := Tally(before.total + invoices[i].totalAmount, before.count + 1)]
    ensures forall k :: k in m2 ==> m2[k] == Tally(TotalOn(invoices[..i + 1], k), CountOn(invoices[..i + 1], k))
  {
    PrefixStep(invoices, i);
    CountPositiveIffDay(invoices[..i], key);
    if key !in m {
      assert TotalOn(invoices[..i], key) == 0;
    }
  }

  /** The accumulation loop of `computeStats`: one tally per day key, each key
      listed once in `keys`. The contract leaves the order of `keys` open (a
      JavaScript Map iterates in first-insertion order); the sort that
      follows makes the order irrelevant, see `SummaryUnique`. */
  method GroupByDay(invoices: seq<Invoice>) returns (keys: seq<string>, m: map<string, Tally>)
    ensures Grouped(invoices, keys, m)
  {
    m, keys := map[], [];
    var i := 0;
    GroupedNothing(invoices);
    while i < |invoices|
      invariant 0 <= i <= |invoices|
      invariant Grouped(invoices[..i], keys, m)
    {
      var inv := invoices[i];
      var dateKey := DayKey(inv.createdAt);
      var before := if dateKey in m then m[dateKey] else Tally(0, 0);
      var existing := Tally(before.total + inv.totalAmount, before.count + 1);
      var keys2 := if dateKey in m then keys else keys + [dateKey];
      var m2 := m[dateKey := existing];
      GroupStep(invoices, i, keys, m, dateKey, before, keys2, m2);
      keys, m := keys2, m2;
      i := i + 1;
    }
    assert invoices[..i] == invoices;
  }

  /** `computeStats`: group by day, list the map's entries, sort them newest
      day first. */
  method ComputeStats(invoices: seq<Invoice>) returns (stats: seq<DayStat>)
    ensures Summarizes(stats, invoices)
    ensures CountSum(stats) == |invoices| && TotalSum(stats) == AmountSum(invoices)
    ensures stats == [] <==> invoices == []
  {
    var keys, m := GroupByDay(invoices);
    var entries := seq(|keys|, j requires 0 <= j < |keys| => DayStat(keys[j], m[keys[j]].total, m[keys[j]].count));
    stats := SortByDate(entries);
    GroupedEntriesSummarize(invoices, keys, m, entries);
    SummaryConserves(stats, invoices);
    SummaryEmptyIffNoInvoices(stats, invoices);
  }

  lemma AppendNewKey(keys: seq<string>, k: string)
    requires forall a, b :: 0 <= a < b < |keys| ==> keys[a] != keys[b]
    requires k !in keys
    ensures forall a, b :: 0 <= a < b < |keys + [k]| ==> (keys + [k])[a] != (keys + [k])[b]
  {
  }

  /** What one more invoice adds to the reference definitions. */
  lemma PrefixStep(invoices: seq<Invoice>, i: nat)
    requires i < |invoices|
    ensures Days(invoices[..i + 1]) == Days(invoices[..i]) + {DayKey(invoices[i].createdAt)}
    ensures forall k :: CountOn(invoices[..i + 1], k)
                     == CountOn(invoices[..i], k) + (if DayKey(invoices[i].createdAt) == k then 1 else 0)
    ensures forall k :: TotalOn(invoices[..i + 1], k)
                     == TotalOn(invoices[..i], k) + (if DayKey(invoices[i].createdAt) == k then invoices[i].totalAmount else 0)
  {
    assert invoices[..i + 1][..i] == invoices[..i];
  }

  /** A row and a day of the map's entries, in the order the keys were met. */
  lemma EntriesRight(invoices: seq<Invoice>, keys: seq<string>, m: map<string, Tally>, entries: seq<DayStat>)
    requires Grouped(invoices, keys, m)
    requires |entries| == |keys|
    requires forall j :: 0 <= j < |keys| ==> entries[j] == DayStat(keys[j], m[keys[j]].total, m[keys[j]].count)
    ensures DistinctDates(entries)
    ensures forall j :: 0 <= j < |entries| ==>
              && entries[j].date in Days(invoices)
              && entries[j].count == CountOn(invoices, entries[j].date)
              && entries[j].total == TotalOn(invoices, entries[j].date)
    ensures forall d :: d in Days(invoices) ==> HasDate(entries, d)
  {
    forall d | d in Days(invoices) ensures HasDate(entries, d) {
      var k :| 0 <= k < |keys| && keys[k] == d;
      assert entries[k].date == d;
    }
  }

  /** Reordering rows keeps every row and every date. */
  lemma RowsPermuted(a: seq<DayStat>, b: seq<DayStat>)
    requires multiset(a) == multiset(b)
    ensures forall j :: 0 <= j < |b| ==> b[j] in a
    ensures forall d :: HasDate(a, d) ==> HasDate(b, d)
  {
    forall j | 0 <= j < |b| ensures b[j] in a {
      assert b[j] in multiset(b);
    }
    forall d | HasDate(a, d) ensures HasDate(b, d) {
      var k :| 0 <= k < |a| && a[k].date == d;
      assert a[k] in multiset(a);
      var j :| 0 <= j < |b| && b[j] == a[k];
    }
  }

  /** The last step of `computeStats`: the map's entries, sorted, summarize the
      invoices the map was built from. */
  lemma GroupedEntriesSummarize(invoices: seq<Invoice>, keys: seq<string>, m: map<string, Tally>, entries: seq<DayStat>)
    requires Grouped(invoices, keys, m)
    requires |entries| == |keys|
    requires forall j :: 0 <= j < |keys| ==> entries[j] == DayStat(keys[j], m[keys[j]].total, m[keys[j]].count)
    ensures Summarizes(SortByDate(entries), invoices)
  {
    var stats := SortByDate(entries);
    EntriesRight(invoices, keys, m, entries);
    SortDescending(entries);
    RowsPermuted(entries, stats);
    forall j | 0 <= j < |stats|
      ensures stats[j].date in Days(invoices)
      ensures stats[j].count == CountOn(invoices, stats[j].date)
      ensures stats[j].total == TotalOn(invoices, stats[j].date)
    {
      var k :| 0 <= k < |entries| && entries[k] == stats[j];
    }
  }

  /** Every row of a summary of `WithoutDay(invoices, day)` is for another day. */
  lemma DeletedDayIsGone(stats: seq<DayStat>, invoices: seq<Invoice>, day: string)
    requires Summarizes(stats, WithoutDay(invoices, day))
    ensures forall i :: 0 <= i < |stats| ==> stats[i].date != day
  {
    forall i | 0 <= i < |stats| ensures stats[i].date != day {
      DaysAreDayKeys(WithoutDay(invoices, day), stats[i].date);
    }
  }

  // ---------------------------------------------------------------------------
  // The screen
  // ---------------------------------------------------------------------------

  class StatsScreen {
    const store: Store
    var stats: seq<DayStat>

    constructor (store: Store)
      ensures this.store == store && stats == []
    {
      this.store := store;
      stats := [];
    }

    /** `loadStats` and `onRefresh`: recompute from the stored invoices. */
    method LoadStats()
      modifies this`stats
      ensures Summarizes(stats, store.invoices)
    {
      var invoices := store.GetInvoices();
      stats := ComputeStats(invoices);
    }

    /** `handleDeleteDay`, confirmed: delete the day in the store, then reload. */
    method DeleteDay(day: string, io: bool) returns (ok: bool)
      modifies this`stats, store`invoices
      ensures ok == io
      ensures store.invoices == if ok then WithoutDay(old(store.invoices), day) else old(store.invoices)
      ensures ok ==> Summarizes(stats, store.invoices) && forall i :: 0 <= i < |stats| ==> stats[i].date != day
      ensures !ok ==> stats == old(stats)
    {
      ok := store.DeleteInvoicesByDate(day, io);
      if ok {
        var invoices := store.GetInvoices();
        stats := ComputeStats(invoices);
        DeletedDayIsGone(stats, old(store.invoices), day);
      }
    }

    /** `handleClearAll`: nothing happens while the list is empty; otherwise,
        once confirmed, every invoice is deleted and the list emptied.
        `asked` tells whether the store was called. */
    method ClearAll(io: bool) returns (asked: bool)
      modifies this`stats, store`invoices
      ensures asked == (old(stats) != [])
      ensures !asked ==> stats == old(stats) && store.invoices == old(store.invoices)
      ensures asked ==> store.invoices == (if io then [] else old(store.invoices))
      ensures asked ==> stats == (if io then [] else old(stats))
    {
      if stats == [] {
        return false;
      }
      asked := true;
      var ok := store.ClearAllInvoices(io);
      if ok {
        stats := [];
      }
    }
  }
}
