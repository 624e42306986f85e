/**
 * The analytics dashboard: the real-time bills listener that buckets sales by
 * calendar day and keeps the seven latest days, and the summary figures
 * derived for display (average sale per bill, product count, stock alerts,
 * chart scale).
 */
module Analytics {
  import opened Wrappers

  /**
   * A calendar day. Bills carry it as a date string; every such string is
   * taken to parse to exactly one day, and distinct strings to distinct days.
   */
  type Date = int

  /**
   * A document of the `bills` collection, reduced to the two fields the
   * listener reads: `date` (None when missing or falsy) and `total` in
   * integer cents (None when missing or falsy).
   */
  datatype Bill = Bill(date: Option<Date>, total: Option<int>)

  /** One entry of the sales series: a day and the sum of its bills' totals. */
  datatype DailyTotal = DailyTotal(date: Date, total: int)

  /** How many of the latest days the sales chart keeps. */
  const WindowDays: nat := 7

  /** `total || 0`: a bill without a total contributes nothing. */
  function TotalOrZero(b: Bill): int {
    b.total.GetOr(0)
  }

  // ---------------------------------------------------------------------------
  // The reference definitions the buckets are checked against

  /** The days that carry at least one bill. */
  ghost function PresentDates(bills: seq<Bill>): set<Date> {
    set i | 0 <= i < |bills| && bills[i].date.Some? :: bills[i].date.value
  }

  /** What one bill adds to the sum of day `d`. */
  function Contribution(b: Bill, d: Date): int {
    if b.date == Some(d) then TotalOrZero(b) else 0
  }

  /** The sum of the totals of the bills dated `d`. */
  function SumOnDate(bills: seq<Bill>, d: Date): int
    decreases |bills|
  {
    if bills == [] then 0
    else
      SumOnDate(bills[..|bills| - 1], d) + Contribution(bills[|bills| - 1], d)
  }

  // ---------------------------------------------------------------------------
  // The `dailySales` object: an association list from day to running total,
  // its keys in insertion order

  function Dates(daily: seq<DailyTotal>): set<Date> {
    set i | 0 <= i < |daily| :: daily[i].date
  }

  lemma DatesCons(x: DailyTotal, daily: seq<DailyTotal>)
    ensures Dates([x] + daily) == {x.date} + Dates(daily)
  {
    var s := [x] + daily;
    forall d | d in Dates(s) ensures d in {x.date} + Dates(daily) {
      var i :| 0 <= i < |s| && s[i].date == d;
      if i > 0 { assert s[i] == daily[i - 1]; }
    }
    forall d | d in Dates(daily) ensures d in Dates(s) {
      var i :| 0 <= i < |daily| && daily[i].date == d;
      assert s[i + 1] == daily[i];
    }
    assert s[0] == x;
  }

  /** No day occurs twice, as with the keys of an object. */
  predicate DistinctDates(daily: seq<DailyTotal>) {
    forall i, j :: 0 <= i < j < |daily| ==> daily[i].date != daily[j].date
  }

  lemma DistinctCons(x: DailyTotal, daily: seq<DailyTotal>)
    ensures DistinctDates([x] + daily) <==> x.date !in Dates(daily) && DistinctDates(daily)
  {
    var s := [x] + daily;
    if DistinctDates(s) {
      forall d | d in Dates(daily) ensures d != x.date {
        var i :| 0 <= i < |daily| && daily[i].date == d;
        assert s[0] == x && s[i + 1] == daily[i];
        assert s[0].date != s[i + 1].date;
      }
      forall i, j | 0 <= i < j < |daily| ensures daily[i].date != daily[j].date {
        assert s[i + 1] == daily[i] && s[j + 1] == daily[j];
      }
    }
    if x.date !in Dates(daily) && DistinctDates(daily) {
      forall i, j | 0 <= i < j < |s| ensures s[i].date != s[j].date {
        assert s[j] == daily[j - 1];
        if i > 0 { assert s[i] == daily[i - 1]; }
      }
    }
  }

  /** Two lists holding the same entries hold the same days. */
  lemma DatesOfPermutation(s: seq<DailyTotal>, t: seq<DailyTotal>)
    requires multiset(s) == multiset(t)
    ensures Dates(s) == Dates(t)
  {
    forall d | d in Dates(s) ensures d in Dates(t) {
      var i :| 0 <= i < |s| && s[i].date == d;
      assert s[i] in multiset(t);
      var j :| 0 <= j < |t| && t[j] == s[i];
    }
    forall d | d in Dates(t) ensures d in Dates(s) {
      var j :| 0 <= j < |t| && t[j].date == d;
      assert t[j] in multiset(s);
      var i :| 0 <= i < |s| && s[i] == t[j];
    }
  }

  /** `dailySales[d] || 0`: the running total of day `d`, 0 for a day not yet seen. */
  function Lookup(daily: seq<DailyTotal>, d: Date): (total: int)
    ensures d !in Dates(daily) ==> total == 0
  {
    if daily == [] then 0
    else if daily[0].date == d then daily[0].total
    else Lookup(daily[1..], d)
  }

  /** `dailySales[d] = v`: overwrite the entry of day `d`, or append one for a new day. */
  function Put(daily: seq<DailyTotal>, d: Date, v: int): (r: seq<DailyTotal>)
    ensures Dates(r) == Dates(daily) + {d}
    ensures Lookup(r, d) == v
    ensures forall e :: e != d ==> Lookup(r, e) == Lookup(daily, e)
    ensures DistinctDates(daily) ==> DistinctDates(r)
  {
    if daily == [] then
      DatesCons(DailyTotal(d, v), []);
      [DailyTotal(d, v)]
    else
      var h, tail := daily[0], daily[1..];
      assert daily == [h] + tail;
      DatesCons(h, tail);
      DistinctCons(h, tail);
      if h.date == d then
        var r := [DailyTotal(d, v)] + tail;
        DatesCons(r[0], tail);
        DistinctCons(r[0], tail);
        assert r[1..] == tail;
        r
      else
        var rest := Put(tail, d, v);
        var r := [h] + rest;
        DatesCons(h, rest);
        DistinctCons(h, rest);
        assert r[1..] == rest;
        r
  }

  /** The body of the per-bill callback: a bill with a day adds its total to that day. */
  function Accumulate(daily: seq<DailyTotal>, b: Bill): (r: seq<DailyTotal>)
    ensures forall d :: Lookup(r, d) == Lookup(daily, d) + Contribution(b, d)
    ensures Dates(r) == Dates(daily) + (if b.date.Some? then {b.date.value} else {})
    ensures DistinctDates(daily) ==> DistinctDates(r)
  {
    match b.date
    case None => daily
    case Some(d) => Put(daily, d, Lookup(daily, d) + TotalOrZero(b))
  }

  /** `dailySales` after the callback has run over every bill of the snapshot in order. */
  function DailySales(bills: seq<Bill>): (daily: seq<DailyTotal>)
    ensures DistinctDates(daily)
    decreases |bills|
  {
    if bills == [] then []
    else Accumulate(DailySales(bills[..|bills| - 1]), bills[|bills| - 1])
  }

  // ---------------------------------------------------------------------------
  // Sorting by day and keeping the last seven entries

  /** Ordered by day, earliest first, no day twice. */
  predicate StrictlyAscending(daily: seq<DailyTotal>) {
    forall i, j :: 0 <= i < j < |daily| ==> daily[i].date < daily[j].date
  }

  /** A day-ordered list stays ordered when an entry earlier than all its days is put in front. */
  lemma AscendingCons(h: DailyTotal, rest: seq<DailyTotal>)
    requires StrictlyAscending(rest)
    requires forall d :: d in Dates(rest) ==> h.date < d
    ensures StrictlyAscending([h] + rest)
  {
    var s := [h] + rest;
    forall i, j | 0 <= i < j < |s| ensures s[i].date < s[j].date {
      assert s[j] == rest[j - 1];
      assert rest[j - 1].date in Dates(rest);
      if i > 0 { assert s[i] == rest[i - 1]; }
    }
  }

  /** The first day of a day-ordered list precedes all the others. */
  lemma HeadPrecedesTail(sorted: seq<DailyTotal>)
    requires StrictlyAscending(sorted) && sorted != []
    ensures forall d :: d in Dates(sorted[1..]) ==> sorted[0].date < d
  {
    forall d | d in Dates(sorted[1..]) ensures sorted[0].date < d {
      var i :| 0 <= i < |sorted[1..]| && sorted[1..][i].date == d;
      assert sorted[1..][i] == sorted[i + 1];
    }
  }

  /** Puts an entry into a day-ordered list before the first later day. */
  function Insert(e: DailyTotal, sorted: seq<DailyTotal>): (r: seq<DailyTotal>)
    ensures multiset(r) == multiset(sorted) + multiset{e}
  {
    if sorted == [] || e.date < sorted[0].date then
      [e] + sorted
    else
      assert sorted == [sorted[0]] + sorted[1..];
      [sorted[0]] + Insert(e, sorted[1..])
  }

  /** Inserting an entry for a new day into a day-ordered list keeps it ordered and adds that day. */
  lemma {:induction false} InsertOrdered(e: DailyTotal, sorted: seq<DailyTotal>)
    requires StrictlyAscending(sorted) && e.date !in Dates(sorted)
    ensures StrictlyAscending(Insert(e, sorted))
    ensures Dates(Insert(e, sorted)) == Dates(sorted) + {e.date}
  {
    if sorted == [] || e.date < sorted[0].date {
      if sorted != [] {
        assert sorted == [sorted[0]] + sorted[1..];
        DatesCons(sorted[0], sorted[1..]);
        HeadPrecedesTail(sorted);
      }
      AscendingCons(e, sorted);
      DatesCons(e, sorted);
    } else {
      var h, tail := sorted[0], sorted[1..];
      assert sorted == [h] + tail;
      DatesCons(h, tail);
      HeadPrecedesTail(sorted);
      InsertOrdered(e, tail);
      var rest := Insert(e, tail);
      AscendingCons(h, rest);
      DatesCons(h, rest);
    }
  }

  /** `.sort((a, b) => new Date(a.date) - new Date(b.date))` over entries whose days are distinct. */
  function SortByDate(daily: seq<DailyTotal>): (r: seq<DailyTotal>)
    requires DistinctDates(daily)
    ensures StrictlyAscending(r)
    ensures multiset(r) == multiset(daily)
  {
    if daily == [] then []
    else
      var h, tail := daily[0], daily[1..];
      assert daily == [h] + tail;
      DistinctCons(h, tail);
      var rest := SortByDate(tail);
      DatesOfPermutation(rest, tail);
      InsertOrdered(h, rest);
      Insert(h, rest)
  }

  /** `.slice(-7)`: the last seven entries, or all of them when there are fewer. */
  function LastWeek(sorted: seq<DailyTotal>): (r: seq<DailyTotal>)
    ensures |r| == if |sorted| <= WindowDays then |sorted| else WindowDays
    ensures r == sorted[|sorted| - |r|..]
  {
    if |sorted| <= WindowDays then sorted else sorted[|sorted| - WindowDays..]
  }

  /** The sales series the listener publishes for a snapshot. */
  function SalesSeries(bills: seq<Bill>): seq<DailyTotal> {
    LastWeek(SortByDate(DailySales(bills)))
  }

  // ---------------------------------------------------------------------------
  // The bills listener

  /**
   * The snapshot callback: the bill count is the snapshot size, and the
   * series is built by accumulating every bill into `dailySales`, then
   * sorting the entries by day and keeping the last seven.
   */
  method OnBillsSnapshot(snapshot: seq<Bill>) returns (billCount: nat, salesData: seq<DailyTotal>)
    ensures billCount == |snapshot|
    ensures salesData == SalesSeries(snapshot)
  {
    billCount := |snapshot|;

    var dailySales: seq<DailyTotal> := [];
    for i := 0 to |snapshot|
      invariant dailySales == DailySales(snapshot[..i])
    {
      var bill := snapshot[i];
      assert snapshot[..i + 1][..i] == snapshot[..i];
      assert DailySales(snapshot[..i + 1]) == Accumulate(dailySales, bill);
      match bill.date {
        case Some(date) =>
          dailySales := Put(dailySales, date, Lookup(dailySales, date) + TotalOrZero(bill));
        case None =>
      }
    }
    assert snapshot[..|snapshot|] == snapshot;

    salesData := LastWeek(SortByDate(dailySales));
  }

  // ---------------------------------------------------------------------------
  // What the series means

  lemma PresentDatesSnoc(bills: seq<Bill>, b: Bill)
    ensures PresentDates(bills + [b]) == PresentDates(bills) + (if b.date.Some? then {b.date.value} else {})
  {
    var s := bills + [b];
    forall d | d in PresentDates(s)
      ensures d in PresentDates(bills) + (if b.date.Some? then {b.date.value} else {})
    {
      var i :| 0 <= i < |s| && s[i].date == Some(d);
      if i < |bills| { assert bills[i] == s[i]; }
    }
    forall d | d in PresentDates(bills)
      ensures d in PresentDates(s)
    {
      var i :| 0 <= i < |bills| && bills[i].date == Some(d);
      assert s[i] == bills[i];
    }
    if b.date.Some? {
      assert s[|bills|] == b;
    }
  }

  /** Each bucket's total is the sum of the totals of the bills of that day, and the buckets are exactly the days that carry a bill. */
  lemma {:induction false} DailySalesBuckets(bills: seq<Bill>)
    ensures Dates(DailySales(bills)) == PresentDates(bills)
    ensures forall d :: Lookup(DailySales(bills), d) == SumOnDate(bills, d)
    decreases |bills|
  {
    if bills != [] {
      var init, b := bills[..|bills| - 1], bills[|bills| - 1];
      DailySalesBuckets(init);
      assert bills == init + [b];
      PresentDatesSnoc(init, b);
    }
  }

  /** In a list with distinct days, an entry is present exactly when its day is and the lookup gives its total. */
  lemma {:induction false} EntryByLookup(daily: seq<DailyTotal>, e: DailyTotal)
    requires DistinctDates(daily)
    ensures e in daily <==> e.date in Dates(daily) && Lookup(daily, e.date) == e.total
  {
    if daily != [] {
      assert Dates(daily) == {daily[0].date} + Dates(daily[1..]);
      if daily[0].date == e.date {
        assert e.date !in Dates(daily[1..]);
        assert e in daily <==> e == daily[0];
      } else {
        EntryByLookup(daily[1..], e);
        assert e in daily <==> e in daily[1..];
      }
    }
  }

  /** The buckets as a set of entries: one per day carrying a bill, with that day's sum. */
  lemma DailySalesEntries(bills: seq<Bill>)
    ensures forall e :: e in DailySales(bills) <==> e.date in PresentDates(bills) && e.total == SumOnDate(bills, e.date)
  {
    DailySalesBuckets(bills);
    forall e ensures e in DailySales(bills) <==> e.date in PresentDates(bills) && e.total == SumOnDate(bills, e.date) {
      EntryByLookup(DailySales(bills), e);
    }
  }

  lemma {:induction false} DistinctCount(daily: seq<DailyTotal>)
    requires DistinctDates(daily)
    ensures |Dates(daily)| == |daily|
  {
    if daily != [] {
      assert Dates(daily) == {daily[0].date} + Dates(daily[1..]);
      assert daily[0].date !in Dates(daily[1..]);
      DistinctCount(daily[1..]);
    }
  }

  /**
   * The series is ordered by day, earliest first; it holds at most seven
   * entries, each the full sum of its day; with seven days or fewer it holds
   * every day, and with more it holds the seven latest, every day left out
   * being earlier than every day kept.
   */
  lemma SalesSeriesWindow(bills: seq<Bill>)
    ensures StrictlyAscending(SalesSeries(bills))
    ensures |SalesSeries(bills)| == if |PresentDates(bills)| <= WindowDays then |PresentDates(bills)| else WindowDays
    ensures forall e :: e in SalesSeries(bills) ==> e.date in PresentDates(bills) && e.total == SumOnDate(bills, e.date)
    ensures |PresentDates(bills)| <= WindowDays ==> Dates(SalesSeries(bills)) == PresentDates(bills)
    ensures forall d, e :: d in PresentDates(bills) && d !in Dates(SalesSeries(bills)) && e in SalesSeries(bills) ==> d < e.date
  {
    var daily := DailySales(bills);
    var sorted := SortByDate(daily);
    DailySalesEntries(bills);
    DailySalesBuckets(bills);
    DistinctCount(daily);
    SortedSameEntries(daily);
    SuffixWindow(sorted);
  }

  /** Sorting keeps the entries and so the days. */
  lemma SortedSameEntries(daily: seq<DailyTotal>)
    requires DistinctDates(daily)
    ensures |SortByDate(daily)| == |daily|
    ensures forall e :: e in SortByDate(daily) <==> e in daily
    ensures Dates(SortByDate(daily)) == Dates(daily)
  {
    var sorted := SortByDate(daily);
    forall e ensures e in sorted <==> e in daily {
      assert e in sorted <==> e in multiset(sorted);
    }
    DatesOfPermutation(sorted, daily);
  }

  /** Keeping the last entries of a day-ordered list keeps the latest days: every day dropped precedes every day kept. */
  lemma SuffixWindow(sorted: seq<DailyTotal>)
    requires StrictlyAscending(sorted)
    ensures StrictlyAscending(LastWeek(sorted))
    ensures forall e :: e in LastWeek(sorted) ==> e in sorted
    ensures |sorted| <= WindowDays ==> LastWeek(sorted) == sorted
    ensures forall d, e :: d in Dates(sorted) && d !in Dates(LastWeek(sorted)) && e in LastWeek(sorted) ==> d < e.date
  {
    var s := LastWeek(sorted);
    var k := |sorted| - |s|;
    forall d, e | d in Dates(sorted) && d !in Dates(s) && e in s
      ensures d < e.date
    {
      var i :| 0 <= i < |sorted| && sorted[i].date == d;
      var j :| 0 <= j < |s| && s[j] == e;
      assert s[j] == sorted[k + j];
    }
  }

  /** A bill with a missing or falsy date goes into no bucket: adding it leaves the series unchanged (though it still counts as a bill). */
  lemma UndatedBillIgnored(bills: seq<Bill>, b: Bill)
    requires b.date.None?
    ensures SalesSeries(bills + [b]) == SalesSeries(bills)
  {
    assert (bills + [b])[..|bills + [b]| - 1] == bills;
  }

  /** An empty snapshot gives an empty series. */
  lemma EmptySnapshot()
    ensures SalesSeries([]) == []
  {
  }

  // ---------------------------------------------------------------------------
  // Independence from the order in which the snapshot lists the bills

  lemma {:induction false} SumOnDateAppend(s: seq<Bill>, t: seq<Bill>, d: Date)
    ensures SumOnDate(s + t, d) == SumOnDate(s, d) + SumOnDate(t, d)
    decreases |t|
  {
    if t == [] {
      assert s + t == s;
    } else {
      assert (s + t)[..|s + t| - 1] == s + t[..|t| - 1];
      SumOnDateAppend(s, t[..|t| - 1], d);
    }
  }

  lemma PresentDatesByElements(a: seq<Bill>, b: seq<Bill>)
    requires multiset(a) == multiset(b)
    ensures PresentDates(a) == PresentDates(b)
  {
    forall d | d in PresentDates(a) ensures d in PresentDates(b) {
      var i :| 0 <= i < |a| && a[i].date == Some(d);
      assert a[i] in multiset(b);
      var j :| 0 <= j < |b| && b[j] == a[i];
    }
    forall d | d in PresentDates(b) ensures d in PresentDates(a) {
      var j :| 0 <= j < |b| && b[j].date == Some(d);
      assert b[j] in multiset(a);
      var i :| 0 <= i < |a| && a[i] == b[j];
    }
  }

  /** Taking one bill out of a snapshot takes its contribution out of the day's sum. */
  lemma SumOnDateRemove(b: seq<Bill>, j: nat, d: Date)
    requires j < |b|
    ensures SumOnDate(b, d) == SumOnDate(b[..j] + b[j + 1..], d) + Contribution(b[j], d)
  {
    var pre, x, post := b[..j], b[j], b[j + 1..];
    assert b == pre + [x] + post;
    SumOnDateAppend(pre + [x], post, d);
    SumOnDateAppend(pre, [x], d);
    SumOnDateAppend(pre, post, d);
    assert [x][..0] == [];
  }

  lemma MultisetRemove(b: seq<Bill>, j: nat)
    requires j < |b|
    ensures multiset(b[..j] + b[j + 1..]) == multiset(b) - multiset{b[j]}
  {
    assert b == b[..j] + [b[j]] + b[j + 1..];
  }

  /** A day's sum does not depend on the order of the bills. */
  lemma {:induction false} SumOnDatePermutation(a: seq<Bill>, b: seq<Bill>, d: Date)
    requires multiset(a) == multiset(b)
    ensures SumOnDate(a, d) == SumOnDate(b, d)
    decreases |a|
  {
    if a == [] {
      assert |multiset(b)| == 0;
    } else {
      var init, x := a[..|a| - 1], a[|a| - 1];
      assert a == init + [x];
      assert x in multiset(b);
      var j :| 0 <= j < |b| && b[j] == x;
      MultisetRemove(b, j);
      assert multiset(init) == multiset(a) - multiset{x};
      SumOnDatePermutation(init, b[..j] + b[j + 1..], d);
      SumOnDateRemove(b, j, d);
    }
  }

  lemma HeadIsMember(s: seq<DailyTotal>)
    requires s != []
    ensures s[0] in s
  {
  }

  /** Two day-ordered lists with the same entries are the same list. */
  lemma {:induction false} AscendingUnique(s: seq<DailyTotal>, t: seq<DailyTotal>)
    requires StrictlyAscending(s) && StrictlyAscending(t)
    requires forall e :: e in s <==> e in t
    ensures s == t
  {
    if s == [] {
      if t != [] { HeadIsMember(t); }
    } else if t == [] {
      HeadIsMember(s);
    } else {
      assert s[0] in t;
      assert t[0] in s;
      assert s[0] == t[0];
      forall e ensures e in s[1..] <==> e in t[1..] {
        assert e in s[1..] <==> e in s && e != s[0];
        assert e in t[1..] <==> e in t && e != t[0];
      }
      AscendingUnique(s[1..], t[1..]);
    }
  }

  /**
   * The series does not depend on the order in which the snapshot delivers
   * the bills: any reordering yields the same series.
   */
  lemma SalesSeriesOrderIndependent(a: seq<Bill>, b: seq<Bill>)
    requires multiset(a) == multiset(b)
    ensures SalesSeries(a) == SalesSeries(b)
  {
    forall d ensures SumOnDate(a, d) == SumOnDate(b, d) {
      SumOnDatePermutation(a, b, d);
    }
    PresentDatesByElements(a, b);
    DailySalesEntries(a);
    DailySalesEntries(b);
    var sa, sb := SortByDate(DailySales(a)), SortByDate(DailySales(b));
    forall e ensures e in sa <==> e in sb {
      assert e in sa <==> e in multiset(DailySales(a));
      assert e in sb <==> e in multiset(DailySales(b));
    }
    AscendingUnique(sa, sb);
  }

  // ---------------------------------------------------------------------------
  // Summary figures

  /**
   * Average sale per bill, in exact (unrounded) cents: 0 when there are no
   * bills, otherwise the value that multiplied by the bill count gives the
   * total sales.
   */
  function AverageSalePerBill(totalSales: int, billCount: nat): (avg: real)
    ensures billCount == 0 ==> avg == 0.0
    ensures billCount > 0 ==> avg * billCount as real == totalSales as real
  {
    if billCount > 0 then totalSales as real / billCount as real else 0.0
  }

  /** `items.reduce((acc, p) => acc + 1, acc)`. */
  function CountReduce<T>(items: seq<T>, acc: int): (r: int)
    ensures r == acc + |items|
  {
    if items == [] then acc else CountReduce(items[1..], acc + 1)
  }

  /** The product count shown in the summary: the number of top-selling entries. */
  function ProductCount<T>(topProducts: seq<T>): (n: int)
    ensures n == |topProducts|
  {
    CountReduce(topProducts, 0)
  }

  /** The largest total of a non-empty series (`Math.max` over the totals). */
  function MaxTotal(series: seq<DailyTotal>): (m: int)
    requires |series| > 0
    ensures forall i :: 0 <= i < |series| ==> series[i].total <= m
    ensures exists i :: 0 <= i < |series| && series[i].total == m
  {
    if |series| == 1 then series[0].total
    else
      var rest := MaxTotal(series[1..]);
      assert forall i :: 1 <= i < |series| ==> series[i] == series[1..][i - 1];
      if series[0].total >= rest then series[0].total else rest
  }

  /**
   * The scale of the sales chart, `Math.max(...totals) || 1`: the largest
   * total, or 1 when that is 0, so that it is never zero.
   */
  function ChartMax(series: seq<DailyTotal>): (m: int)
    requires |series| > 0
    ensures m != 0
    ensures forall i :: 0 <= i < |series| ==> series[i].total <= m
    ensures (exists i :: 0 <= i < |series| && series[i].total == m)
         || (m == 1 && exists i :: 0 <= i < |series| && series[i].total == 0)
  {
    var top := MaxTotal(series);
    if top != 0 then top else 1
  }

  // ---------------------------------------------------------------------------
  // The low-stock table and its alert counts

  /** A product of the low-stock list; prices are integer cents, possibly missing. */
  datatype Product = Product(id: string, name: string, category: string, price: Option<int>, quantity: int)

  /** The status a row of the low-stock table shows. */
  datatype StockStatus = OutOfStock | LowStock {
    function Label(): string {
      match this
      case OutOfStock => "OUT OF STOCK"
      case LowStock => "LOW STOCK"
    }
  }

  /** `quantity === 0` picks the OUT OF STOCK row; every other quantity shows LOW STOCK. */
  function Status(p: Product): StockStatus {
    if p.quantity == 0 then OutOfStock else LowStock
  }

  predicate IsCritical(p: Product) { p.quantity == 0 }

  predicate IsWarning(p: Product) { p.quantity > 0 }

  predicate IsNegative(p: Product) { p.quantity < 0 }

  /** `items.filter(keep)`: each item kept as often as it occurs when `keep` holds of it, dropped otherwise. */
  function Filter(items: seq<Product>, keep: Product -> bool): (r: seq<Product>)
    ensures forall p :: multiset(r)[p] == if keep(p) then multiset(items)[p] else 0
  {
    if items == [] then []
    else
      assert items == [items[0]] + items[1..];
      (if keep(items[0]) then [items[0]] else []) + Filter(items[1..], keep)
  }

  lemma FilterMembers(items: seq<Product>, keep: Product -> bool)
    ensures forall p :: p in Filter(items, keep) <==> p in items && keep(p)
  {
    forall p ensures p in Filter(items, keep) <==> p in items && keep(p) {
      assert p in Filter(items, keep) <==> p in multiset(Filter(items, keep));
      assert p in items <==> p in multiset(items);
    }
  }

  lemma FilterUnfold(items: seq<Product>, keep: Product -> bool)
    requires items != []
    ensures |Filter(items, keep)| == (if keep(items[0]) then 1 else 0) + |Filter(items[1..], keep)|
  {
  }

  /** The "Critical Alerts" figure. */
  function CriticalCount(items: seq<Product>): nat {
    |Filter(items, IsCritical)|
  }

  /** The "Warning Count" figure. */
  function WarningCount(items: seq<Product>): nat {
    |Filter(items, IsWarning)|
  }

  /**
   * The items counted as critical are exactly the rows shown OUT OF STOCK,
   * and the items counted as warnings are exactly the LOW STOCK rows with a
   * positive quantity.
   */
  lemma StatusMatchesCounts(items: seq<Product>)
    ensures forall p :: p in Filter(items, IsCritical) <==> p in items && Status(p).Label() == "OUT OF STOCK"
    ensures forall p :: p in Filter(items, IsWarning) <==> p in items && Status(p).Label() == "LOW STOCK" && p.quantity > 0
  {
    FilterMembers(items, IsCritical);
    FilterMembers(items, IsWarning);
  }

  /**
   * Every item is critical, a warning or has a negative quantity, exactly one
   * of the three; so for non-negative quantities the two counts add up to the
   * length of the list.
   */
  lemma {:induction false} StockCountsPartition(items: seq<Product>)
    ensures CriticalCount(items) + WarningCount(items) + |Filter(items, IsNegative)| == |items|
    ensures (forall i :: 0 <= i < |items| ==> items[i].quantity >= 0) ==> CriticalCount(items) + WarningCount(items) == |items|
  {
    if items != [] {
      FilterUnfold(items, IsCritical);
      FilterUnfold(items, IsWarning);
      FilterUnfold(items, IsNegative);
      StockCountsPartition(items[1..]);
    }
  }
}
