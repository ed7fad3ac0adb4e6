/** The dashboard's record helpers (lib/dashboard-utils.ts): filtering by the
    dashboard filters, the incoming/outgoing totals, and the seven-day trend. */
module DashboardUtils {
  import opened Types
  import opened Time

  // ---------------------------------------------------------------------
  // filterWeightRecords
  // ---------------------------------------------------------------------

  /** JavaScript truthiness of an optional string filter: present and non-empty. */
  predicate IsActive(f: Option<string>) {
    f.Some? && f.value != ""
  }

  /** The date test: from the start of the first day to the end of the last. */
  predicate InDateRange(r: WeightRecord, range: DateRange) {
    IsWithinInterval(r.timestamp, StartOfDay(range.from), EndOfDay(range.to))
  }

  /** The test applied to each record: every filter that is set must agree.
      The date test keeps exactly the records whose calendar day lies between
      the days of the two ends, and a type filter naming neither direction
      keeps nothing. */
  predicate Passes(r: WeightRecord, f: DashboardFilters): (ok: bool)
    ensures ok <==>
      && (f.dateRange.Some? ==>
            DayIndex(f.dateRange.value.from) <= DayIndex(r.timestamp) <= DayIndex(f.dateRange.value.to))
      && (IsActive(f.recordType) ==> TypeName(r.recordType) == f.recordType.value)
      && (IsActive(f.itemId) ==> r.item.id == f.itemId.value)
      && (IsActive(f.vendorId) ==> r.vendor.id == f.vendorId.value)
      && (IsActive(f.vehicleId) ==> r.vehicle.id == f.vehicleId.value)
    ensures IsActive(f.recordType) && f.recordType.value != "incoming" && f.recordType.value != "outgoing" ==> !ok
  {
    var range := f.dateRange.GetOr(DateRange(0, 0));
    DayWindow(r.timestamp, range.from, range.to);
    && (f.dateRange.Some? ==> InDateRange(r, f.dateRange.value))
    && (IsActive(f.recordType) ==> TypeName(r.recordType) == f.recordType.value)
    && (IsActive(f.itemId) ==> r.item.id == f.itemId.value)
    && (IsActive(f.vendorId) ==> r.vendor.id == f.vendorId.value)
    && (IsActive(f.vehicleId) ==> r.vehicle.id == f.vehicleId.value)
  }

  /** The records that pass every active filter, in their original order. */
  function FilterWeightRecords(records: seq<WeightRecord>, filters: DashboardFilters): (kept: seq<WeightRecord>)
    ensures |kept| <= |records|
    ensures forall x :: x in kept <==> x in records && Passes(x, filters)
  {
    if records == [] then []
    else if Passes(records[0], filters) then [records[0]] + FilterWeightRecords(records[1..], filters)
    else FilterWeightRecords(records[1..], filters)
  }

  /** `xs` is obtained from `ys` by deleting elements, keeping the order. */
  ghost predicate IsSubsequence(xs: seq<WeightRecord>, ys: seq<WeightRecord>)
    decreases |ys|
  {
    || xs == []
    || (&& ys != []
        && ((xs[0] == ys[0] && IsSubsequence(xs[1..], ys[1..])) || IsSubsequence(xs, ys[1..])))
  }

  /** Filtering only deletes records; it never reorders or invents them. */
  lemma {:induction false} FilterIsSubsequence(records: seq<WeightRecord>, filters: DashboardFilters)
    ensures IsSubsequence(FilterWeightRecords(records, filters), records)
  {
    if records != [] {
      var kept := FilterWeightRecords(records, filters);
      FilterIsSubsequence(records[1..], filters);
      if Passes(records[0], filters) {
        assert kept[0] == records[0] && kept[1..] == FilterWeightRecords(records[1..], filters);
      }
    }
  }

  /** A record is kept exactly when it satisfies each of the five filters that are set. */
  lemma FilterKeepsExactly(records: seq<WeightRecord>, filters: DashboardFilters, x: WeightRecord)
    ensures x in FilterWeightRecords(records, filters) <==>
      && x in records
      && (filters.dateRange.Some? ==>
            StartOfDay(filters.dateRange.value.from) <= x.timestamp <= EndOfDay(filters.dateRange.value.to))
      && (IsActive(filters.recordType) ==> TypeName(x.recordType) == filters.recordType.value)
      && (IsActive(filters.itemId) ==> x.item.id == filters.itemId.value)
      && (IsActive(filters.vendorId) ==> x.vendor.id == filters.vendorId.value)
      && (IsActive(filters.vehicleId) ==> x.vehicle.id == filters.vehicleId.value)
  {
  }

  /** With no filter set every record is kept, in place. */
  lemma {:induction false} FilterWithoutFilters(records: seq<WeightRecord>)
    ensures FilterWeightRecords(records, NoFilters) == records
  {
    if records != [] {
      FilterWithoutFilters(records[1..]);
      assert records == [records[0]] + records[1..];
    }
  }

  /** Filtering a concatenation filters each part. */
  lemma {:induction false} FilterConcat(a: seq<WeightRecord>, b: seq<WeightRecord>, filters: DashboardFilters)
    ensures FilterWeightRecords(a + b, filters) == FilterWeightRecords(a, filters) + FilterWeightRecords(b, filters)
  {
    if a != [] {
      assert (a + b)[0] == a[0] && (a + b)[1..] == a[1..] + b;
      FilterConcat(a[1..], b, filters);
    } else {
      assert a + b == b;
    }
  }

  /** Filtering with `f` after a weaker filter `g` gives what filtering with `f` alone gives. */
  lemma {:induction false} FilterNarrowing(records: seq<WeightRecord>, f: DashboardFilters, g: DashboardFilters)
    requires forall x :: Passes(x, f) ==> Passes(x, g)
    ensures FilterWeightRecords(FilterWeightRecords(records, g), f) == FilterWeightRecords(records, f)
  {
    if records != [] {
      FilterNarrowing(records[1..], f, g);
      if Passes(records[0], g) {
        var once := FilterWeightRecords(records, g);
        assert once[0] == records[0] && once[1..] == FilterWeightRecords(records[1..], g);
      }
    }
  }

  /** Filtering twice with the same filters changes nothing. */
  lemma {:induction false} FilterIdempotent(records: seq<WeightRecord>, filters: DashboardFilters)
    ensures FilterWeightRecords(FilterWeightRecords(records, filters), filters) == FilterWeightRecords(records, filters)
  {
    FilterNarrowing(records, filters, filters);
  }

  // ---------------------------------------------------------------------
  // calculateTotals
  // ---------------------------------------------------------------------

  /** The records of direction `t`, in their original order. */
  function OfType(records: seq<WeightRecord>, t: RecordType): (r: seq<WeightRecord>)
    ensures |r| <= |records|
  {
    if records == [] then []
    else if records[0].recordType == t then [records[0]] + OfType(records[1..], t)
    else OfType(records[1..], t)
  }

  /** The records of one direction are exactly the records of that type. */
  lemma {:induction false} OfTypeMembers(records: seq<WeightRecord>, t: RecordType)
    ensures forall x :: x in OfType(records, t) <==> x in records && x.recordType == t
  {
    if records != [] {
      OfTypeMembers(records[1..], t);
      assert records == [records[0]] + records[1..];
    }
  }

  /** The net weights of the records added up, starting from 0. */
  function SumNet(records: seq<WeightRecord>): int {
    if records == [] then 0 else records[0].netWeight + SumNet(records[1..])
  }

  datatype Totals = Totals(
    totalIncoming: int,
    totalOutgoing: int,
    incomingCount: int,
    outgoingCount: int,
    totalRecords: int)

  predicate AllNetNonNegative(records: seq<WeightRecord>) {
    forall x :: x in records ==> x.netWeight >= 0
  }

  /** Every record is incoming or outgoing, never both: the two parts split
      both the count and the net weight of the whole. */
  lemma {:induction false} TypePartition(records: seq<WeightRecord>)
    ensures |OfType(records, Incoming)| + |OfType(records, Outgoing)| == |records|
    ensures SumNet(OfType(records, Incoming)) + SumNet(OfType(records, Outgoing)) == SumNet(records)
  {
    if records != [] {
      TypePartition(records[1..]);
    }
  }

  /** A batch without negative net weights has a non-negative sum. */
  lemma {:induction false} SumNetNonNegative(records: seq<WeightRecord>)
    requires AllNetNonNegative(records)
    ensures SumNet(records) >= 0
  {
    if records != [] {
      assert records[0] in records;
      assert AllNetNonNegative(records[1..]) by {
        forall x | x in records[1..] ensures x in records { }
      }
      SumNetNonNegative(records[1..]);
    }
  }

  /** A part of a batch without negative net weights has a non-negative sum. */
  lemma PartsNonNegative(records: seq<WeightRecord>)
    ensures AllNetNonNegative(records) ==>
      SumNet(OfType(records, Incoming)) >= 0 && SumNet(OfType(records, Outgoing)) >= 0
  {
    if AllNetNonNegative(records) {
      OfTypeMembers(records, Incoming);
      OfTypeMembers(records, Outgoing);
      SumNetNonNegative(OfType(records, Incoming));
      SumNetNonNegative(OfType(records, Outgoing));
    }
  }

  /** The dashboard totals: net weight and count per direction, and the number of records. */
  function CalculateTotals(records: seq<WeightRecord>): (t: Totals)
    ensures t.totalIncoming == SumNet(OfType(records, Incoming)) && t.incomingCount == |OfType(records, Incoming)|
    ensures t.totalOutgoing == SumNet(OfType(records, Outgoing)) && t.outgoingCount == |OfType(records, Outgoing)|
    ensures t.totalRecords == |records|
    ensures t.incomingCount + t.outgoingCount == t.totalRecords
    ensures t.totalIncoming + t.totalOutgoing == SumNet(records)
    ensures AllNetNonNegative(records) ==> t.totalIncoming >= 0 && t.totalOutgoing >= 0
  {
    var incoming := OfType(records, Incoming);
    var outgoing := OfType(records, Outgoing);
    TypePartition(records);
    PartsNonNegative(records);
    Totals(SumNet(incoming), SumNet(outgoing), |incoming|, |outgoing|, |records|)
  }

  function AddTotals(a: Totals, b: Totals): Totals {
    Totals(a.totalIncoming + b.totalIncoming, a.totalOutgoing + b.totalOutgoing,
           a.incomingCount + b.incomingCount, a.outgoingCount + b.outgoingCount,
           a.totalRecords + b.totalRecords)
  }

  lemma {:induction false} OfTypeConcat(a: seq<WeightRecord>, b: seq<WeightRecord>, t: RecordType)
    ensures OfType(a + b, t) == OfType(a, t) + OfType(b, t)
  {
    if a != [] {
      assert (a + b)[0] == a[0] && (a + b)[1..] == a[1..] + b;
      OfTypeConcat(a[1..], b, t);
    } else {
      assert a + b == b;
    }
  }

  lemma {:induction false} SumNetConcat(a: seq<WeightRecord>, b: seq<WeightRecord>)
    ensures SumNet(a + b) == SumNet(a) + SumNet(b)
  {
    if a != [] {
      assert (a + b)[0] == a[0] && (a + b)[1..] == a[1..] + b;
      SumNetConcat(a[1..], b);
    } else {
      assert a + b == b;
    }
  }

  /** One direction of two batches together: its count and its net weight are the sums of the batches'. */
  lemma {:induction false} PartConcat(a: seq<WeightRecord>, b: seq<WeightRecord>, t: RecordType)
    ensures |OfType(a + b, t)| == |OfType(a, t)| + |OfType(b, t)|
    ensures SumNet(OfType(a + b, t)) == SumNet(OfType(a, t)) + SumNet(OfType(b, t))
  {
    OfTypeConcat(a, b, t);
    SumNetConcat(OfType(a, t), OfType(b, t));
  }

  /** The totals of two batches of records together are the field-wise sums of their totals. */
  lemma {:induction false} TotalsConcat(a: seq<WeightRecord>, b: seq<WeightRecord>)
    ensures CalculateTotals(a + b) == AddTotals(CalculateTotals(a), CalculateTotals(b))
  {
    PartConcat(a, b, Incoming);
    PartConcat(a, b, Outgoing);
  }

  // ---------------------------------------------------------------------
  // getWeightTrendData
  // ---------------------------------------------------------------------

  /** The records whose timestamp lies in the closed interval [start, end], in order. */
  function RecordsWithin(records: seq<WeightRecord>, start: int, end: int): (r: seq<WeightRecord>)
    ensures forall x :: x in r <==> x in records && IsWithinInterval(x.timestamp, start, end)
  {
    if records == [] then []
    else if IsWithinInterval(records[0].timestamp, start, end) then [records[0]] + RecordsWithin(records[1..], start, end)
    else RecordsWithin(records[1..], start, end)
  }

  /** One bar of the trend chart: the day it stands for, and the net weight
      weighed in and out on that day (kilograms before rounding, tons after). */
  datatype TrendPoint = TrendPoint(date: int, incoming: int, outgoing: int)

  /** Kilograms rounded to the nearest whole ton, halves rounded up. */
  function Tons(kg: int): (t: int)
    ensures 1000 * t - 500 <= kg < 1000 * t + 500
  {
    (kg + 500) / 1000
  }

  /** The bar for the calendar day of `date`, in kilograms. */
  function DayPoint(records: seq<WeightRecord>, date: int): TrendPoint {
    var dayRecords := RecordsWithin(records, StartOfDay(date), EndOfDay(date));
    TrendPoint(date, SumNet(OfType(dayRecords, Incoming)), SumNet(OfType(dayRecords, Outgoing)))
  }

  /** A bar as the chart receives it: both weights rounded to tons. */
  function InTons(p: TrendPoint): TrendPoint {
    p.(incoming := Tons(p.incoming), outgoing := Tons(p.outgoing))
  }

  /** The seven bars in kilograms, from six days before `today` up to `today`. */
  function KgTrend(records: seq<WeightRecord>, today: int): (r: seq<TrendPoint>)
    ensures |r| == 7
  {
    seq(7, k requires 0 <= k < 7 => DayPoint(records, AddDays(today, k - 6)))
  }

  /** The seven bars the chart receives. */
  function Trend(records: seq<WeightRecord>, today: int): (r: seq<TrendPoint>)
    ensures |r| == 7
  {
    seq(7, k requires 0 <= k < 7 => InTons(DayPoint(records, AddDays(today, k - 6))))
  }

  /** The loop that pushes one bar per day, oldest day first. */
  method GetWeightTrendData(records: seq<WeightRecord>, today: int) returns (last7Days: seq<TrendPoint>)
    ensures last7Days == Trend(records, today)
  {
    last7Days := [];
    var i := 6;
    while i >= 0
      invariant -1 <= i <= 6
      invariant |last7Days| == 6 - i
      invariant forall k :: 0 <= k < |last7Days| ==> last7Days[k] == InTons(DayPoint(records, AddDays(today, k - 6)))
    {
      var date := AddDays(today, -i);
      var dayRecords := RecordsWithin(records, StartOfDay(date), EndOfDay(date));
      var incoming := SumNet(OfType(dayRecords, Incoming));
      var outgoing := SumNet(OfType(dayRecords, Outgoing));
      last7Days := last7Days + [TrendPoint(date, Tons(incoming), Tons(outgoing))];
      i := i - 1;
    }
  }

  /** The bars stand for seven consecutive calendar days ending with today's. */
  lemma TrendDays(records: seq<WeightRecord>, today: int)
    ensures forall k :: 0 <= k < 7 ==> DayIndex(Trend(records, today)[k].date) == DayIndex(today) - 6 + k
    ensures Trend(records, today)[6].date == today
  {
    forall k | 0 <= k < 7
      ensures DayIndex(Trend(records, today)[k].date) == DayIndex(today) - 6 + k
    {
      AddDaysIndex(today, k - 6);
    }
  }

  /** Reference sum: the net weight of the records of type `t` whose day lies in [lo, hi]. */
  function SumOnDays(records: seq<WeightRecord>, t: RecordType, lo: int, hi: int): int {
    if records == [] then 0
    else
      var r := records[0];
      (if r.recordType == t && lo <= DayIndex(r.timestamp) <= hi then r.netWeight else 0)
      + SumOnDays(records[1..], t, lo, hi)
  }

  /** Splitting a range of days splits the sum. */
  lemma {:induction false} SumOnDaysSplit(records: seq<WeightRecord>, t: RecordType, lo: int, mid: int, hi: int)
    requires lo - 1 <= mid <= hi
    ensures SumOnDays(records, t, lo, hi) == SumOnDays(records, t, lo, mid) + SumOnDays(records, t, mid + 1, hi)
  {
    if records != [] {
      SumOnDaysSplit(records[1..], t, lo, mid, hi);
    }
  }

  /** The `t` net weight of the records between the start of the day of `from`
      and the end of the day of `to` is the reference sum over those days. */
  lemma {:induction false} WithinSum(records: seq<WeightRecord>, t: RecordType, from: int, to: int)
    ensures SumNet(OfType(RecordsWithin(records, StartOfDay(from), EndOfDay(to)), t))
         == SumOnDays(records, t, DayIndex(from), DayIndex(to))
  {
    if records != [] {
      WithinSum(records[1..], t, from, to);
      DayWindow(records[0].timestamp, from, to);
    }
  }

  /** Each bar adds up exactly the records of its own calendar day, by direction. */
  lemma DayPointCountsOnlyItsDay(records: seq<WeightRecord>, date: int)
    ensures DayPoint(records, date).incoming == SumOnDays(records, Incoming, DayIndex(date), DayIndex(date))
    ensures DayPoint(records, date).outgoing == SumOnDays(records, Outgoing, DayIndex(date), DayIndex(date))
  {
    WithinSum(records, Incoming, date, date);
    WithinSum(records, Outgoing, date, date);
  }

  function Bar(p: TrendPoint, t: RecordType): int {
    if t == Incoming then p.incoming else p.outgoing
  }

  /** The total height of the bars of one direction. */
  function SumBars(points: seq<TrendPoint>, t: RecordType): int {
    if points == [] then 0 else SumBars(points[..|points| - 1], t) + Bar(points[|points| - 1], t)
  }

  /** Bar `k` of the trend, in kilograms, holds the reference sum of day `k`. */
  lemma TrendBar(records: seq<WeightRecord>, today: int, t: RecordType, k: nat)
    requires k < 7
    ensures Bar(KgTrend(records, today)[k], t)
         == SumOnDays(records, t, DayIndex(today) - 6 + k, DayIndex(today) - 6 + k)
  {
    var date := AddDays(today, k - 6);
    assert KgTrend(records, today)[k] == DayPoint(records, date);
    DayPointCountsOnlyItsDay(records, date);
    AddDaysIndex(today, k - 6);
  }

  /** Bar `k` of the chart data is bar `k` of the kilogram series rounded to
      tons: the nearest whole ton to the reference sum of day `k`. */
  lemma TrendBarTons(records: seq<WeightRecord>, today: int, t: RecordType, k: nat)
    requires k < 7
    ensures Trend(records, today)[k] == InTons(KgTrend(records, today)[k])
    ensures Bar(Trend(records, today)[k], t)
         == Tons(SumOnDays(records, t, DayIndex(today) - 6 + k, DayIndex(today) - 6 + k))
  {
    TrendBar(records, today, t, k);
  }

  lemma {:induction false} PrefixSum(points: seq<TrendPoint>, records: seq<WeightRecord>, today: int, t: RecordType, n: nat)
    requires points == KgTrend(records, today) && n <= 7
    ensures SumBars(points[..n], t) == SumOnDays(records, t, DayIndex(today) - 6, DayIndex(today) - 7 + n)
  {
    var d := DayIndex(today);
    if n == 0 {
      SumOnDaysSplit(records, t, d - 6, d - 7, d - 7);
    } else {
      var prefix := points[..n];
      assert prefix[..n - 1] == points[..n - 1];
      assert SumBars(prefix, t) == SumBars(points[..n - 1], t) + Bar(points[n - 1], t);
      PrefixSum(points, records, today, t, n - 1);
      TrendBar(records, today, t, n - 1);
      SumOnDaysSplit(records, t, d - 6, d - 8 + n, d - 7 + n);
    }
  }

  /** The filter that keeps the seven days the trend chart shows. */
  function LastSevenDays(today: int): DashboardFilters {
    NoFilters.(dateRange := Some(DateRange(AddDays(today, -6), today)))
  }

  lemma {:induction false} DateOnlyFilter(records: seq<WeightRecord>, from: int, to: int)
    ensures FilterWeightRecords(records, NoFilters.(dateRange := Some(DateRange(from, to))))
         == RecordsWithin(records, StartOfDay(from), EndOfDay(to))
  {
    if records != [] {
      DateOnlyFilter(records[1..], from, to);
    }
  }

  /** The seven bars of each direction, in kilograms, add up to the dashboard
      total of the records that the seven-day date filter keeps. */
  lemma TrendMatchesWeekTotals(records: seq<WeightRecord>, today: int)
    ensures SumBars(KgTrend(records, today), Incoming)
         == CalculateTotals(FilterWeightRecords(records, LastSevenDays(today))).totalIncoming
    ensures SumBars(KgTrend(records, today), Outgoing)
         == CalculateTotals(FilterWeightRecords(records, LastSevenDays(today))).totalOutgoing
  {
    var trend := KgTrend(records, today);
    assert trend[..7] == trend;
    PrefixSum(trend, records, today, Incoming, 7);
    PrefixSum(trend, records, today, Outgoing, 7);
    DateOnlyFilter(records, AddDays(today, -6), today);
    AddDaysIndex(today, -6);
    WithinSum(records, Incoming, AddDays(today, -6), today);
    WithinSum(records, Outgoing, AddDays(today, -6), today);
  }

  /** Rounding each of `n` bars to tons moves their total by at most `n` half tons. */
  lemma {:induction false} RoundingGap(kg: seq<TrendPoint>, tons: seq<TrendPoint>, t: RecordType)
    requires |kg| == |tons|
    requires forall k :: 0 <= k < |kg| ==> tons[k] == InTons(kg[k])
    ensures -500 * |kg| <= SumBars(kg, t) - 1000 * SumBars(tons, t) <= 500 * |kg|
  {
    if kg != [] {
      var n := |kg| - 1;
      RoundingGap(kg[..n], tons[..n], t);
      assert tons[n] == InTons(kg[n]);
    }
  }

  /** The bars the chart receives differ from the week's totals by less than
      half a ton per day: at most 3.5 t per direction. */
  lemma ChartNearWeekTotals(records: seq<WeightRecord>, today: int)
    ensures var totals := CalculateTotals(FilterWeightRecords(records, LastSevenDays(today)));
      && -3500 <= totals.totalIncoming - 1000 * SumBars(Trend(records, today), Incoming) <= 3500
      && -3500 <= totals.totalOutgoing - 1000 * SumBars(Trend(records, today), Outgoing) <= 3500
  {
    TrendMatchesWeekTotals(records, today);
    RoundingGap(KgTrend(records, today), Trend(records, today), Incoming);
    RoundingGap(KgTrend(records, today), Trend(records, today), Outgoing);
  }
}
