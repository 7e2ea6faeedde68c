/** Trend buckets of app/api/dashboard.py.

    A moment is a number of microseconds since Monday 0001-01-01 00:00 UTC, the first moment the
    program's calendar has, so that the day number modulo seven is the weekday.
 */
module Dashboard {
  import opened Wrappers

  const HOUR: int := 3_600_000_000
  const DAY: int := 86_400_000_000

  datatype Grain = Hour | Day | Week

  function Step(grain: Grain): int {
    match grain
    case Hour => HOUR
    case Week => 7 * DAY
    case Day => DAY
  }

  function Weekday(moment: int): int {
    moment / DAY % 7
  }

  /** `_align`: clear the fields below the grain, after going back to Monday for weeks. */
  function Align(moment: int, grain: Grain): int {
    match grain
    case Hour => moment - moment % HOUR
    case Week =>
      var monday := moment - Weekday(moment) * DAY;
      monday - monday % DAY
    case Day => moment - moment % DAY
  }

  /** TREND_RANGES, with "7d" for every other key. */
  function Range(key: string): (int, Grain) {
    if key == "24h" then (24 * HOUR, Hour)
    else if key == "30d" then (30 * DAY, Day)
    else if key == "90d" then (90 * DAY, Week)
    else (7 * DAY, Day)
  }

  datatype Row = Row(createdAt: Option<int>, matched: bool, unmatched: bool, waiting: bool)

  datatype Flag = Ingested | Matched | Unmatched | Waiting

  predicate Carries(row: Row, flag: Flag) {
    match flag
    case Ingested => true
    case Matched => row.matched
    case Unmatched => row.unmatched
    case Waiting => row.waiting
  }

  /** The number of the grain period a moment falls in. */
  function Period(moment: int, grain: Grain): int {
    moment / Step(grain)
  }

  lemma AlignStartsThePeriod(moment: int, grain: Grain)
    ensures Align(moment, grain) == Period(moment, grain) * Step(grain)
    ensures Align(moment, grain) <= moment < Align(moment, grain) + Step(grain)
  {
    match grain
    case Hour =>
    case Day =>
    case Week => MondayStartsTheWeek(moment);
  }

  lemma MondayStartsTheWeek(moment: int)
    ensures Align(moment, Week) == moment / (7 * DAY) * (7 * DAY)
    ensures Align(moment, Week) <= moment < Align(moment, Week) + 7 * DAY
  {
    var day, rest := moment / DAY, moment % DAY;
    var week, weekday := day / 7, day % 7;
    assert moment == (7 * week + weekday) * DAY + rest;
    assert moment / (7 * DAY) == week;
    assert (moment - weekday * DAY) % DAY == rest;
  }

  lemma PeriodOfAligned(q: int, grain: Grain)
    ensures Period(q * Step(grain), grain) == q
  {
  }

  lemma PeriodIsMonotone(a: int, b: int, grain: Grain)
    requires a <= b
    ensures Period(a, grain) <= Period(b, grain)
  {
  }

  /** The rows that count: stamped no earlier than the first bucket. */
  predicate InRange(row: Row, start: int, flag: Flag) {
    row.createdAt.Some? && row.createdAt.value >= start && Carries(row, flag)
  }

  /** The period a row is shown in: its own, or the last one when it is stamped in the future. */
  function ShownIn(moment: int, now: int, grain: Grain): int {
    if Period(moment, grain) > Period(now, grain) then Period(now, grain) else Period(moment, grain)
  }

  /** The indices of the first `n` rows that `flag` puts into period `q`. */
  ghost function Cell(rows: seq<Row>, n: nat, start: int, now: int, grain: Grain, flag: Flag, q: int): set<nat>
    requires n <= |rows|
  {
    set i: nat | i < n && InRange(rows[i], start, flag) && ShownIn(rows[i].createdAt.value, now, grain) == q
  }

  type Cells = map<int, set<nat>>

  function At(cells: Cells, key: int): set<nat> {
    if key in cells then cells[key] else {}
  }

  /** The map holds exactly the rows seen so far, keyed by the start of their period. */
  ghost predicate Filled(cells: Cells, rows: seq<Row>, n: nat, start: int, now: int, grain: Grain, flag: Flag)
    requires n <= |rows|
  {
    forall q :: At(cells, q * Step(grain)) == Cell(rows, n, start, now, grain, flag, q)
  }

  // ---------- the bucket loop ----------

  lemma Distribute(a: int, b: int, step: int)
    ensures (a + b) * step == a * step + b * step
  {
  }

  method Buckets(start: int, now: int, grain: Grain) returns (buckets: seq<int>)
    requires start <= now && start == Align(start, grain)
    ensures |buckets| == Period(now, grain) - Period(start, grain) + 1
    ensures forall i | 0 <= i < |buckets| :: buckets[i] == (Period(start, grain) + i) * Step(grain)
  {
    buckets := [];
    var cursor := start;
    AlignStartsThePeriod(start, grain);
    while cursor <= now
      invariant cursor == (Period(start, grain) + |buckets|) * Step(grain)
      invariant |buckets| <= Period(now, grain) - Period(start, grain) + 1
      invariant forall i | 0 <= i < |buckets| :: buckets[i] == (Period(start, grain) + i) * Step(grain)
      decreases now - cursor
    {
      PeriodIsMonotone(cursor, now, grain);
      PeriodOfAligned(Period(start, grain) + |buckets|, grain);
      Distribute(Period(start, grain) + |buckets|, 1, Step(grain));
      buckets := buckets + [cursor];
      cursor := cursor + Step(grain);
    }
    AlignStartsThePeriod(now, grain);
    if |buckets| <= Period(now, grain) - Period(start, grain) {
      MulMonotone(Period(start, grain) + |buckets|, Period(now, grain), Step(grain));
    }
  }

  lemma MulMonotone(a: int, b: int, step: int)
    requires a <= b && step > 0
    ensures a * step <= b * step
  {
  }

  lemma MulInjective(a: int, b: int, step: int)
    requires step > 0 && a * step == b * step
    ensures a == b
  {
  }

  // ---------- placing the rows ----------

  method Place(cells: Cells, moment: Option<int>, ident: nat, start: int, grain: Grain, last: int) returns (r: Cells)
    ensures r == if moment.None? || moment.value < start then cells
                 else
                   var key := if Align(moment.value, grain) > last then last else Align(moment.value, grain);
                   cells[key := At(cells, key) + {ident}]
  {
    if moment.None? || moment.value < start {
      return cells;
    }
    var key := Align(moment.value, grain);
    if key > last {
      key := last;
    }
    r := cells[key := At(cells, key) + {ident}];
  }

  /** The key a moment is stored under is the start of the period it is shown in. */
  lemma KeyIsShownPeriod(moment: int, now: int, grain: Grain)
    ensures (if Align(moment, grain) > Period(now, grain) * Step(grain) then Period(now, grain) * Step(grain)
             else Align(moment, grain)) == ShownIn(moment, now, grain) * Step(grain)
  {
    AlignStartsThePeriod(moment, grain);
    if Period(moment, grain) > Period(now, grain) {
      MulMonotone(Period(now, grain), Period(moment, grain), Step(grain));
    } else {
      MulMonotone(Period(moment, grain), Period(now, grain), Step(grain));
    }
  }

  lemma CellSkips(rows: seq<Row>, n: nat, start: int, now: int, grain: Grain, flag: Flag, q: int)
    requires n < |rows| && !(InRange(rows[n], start, flag) && ShownIn(rows[n].createdAt.value, now, grain) == q)
    ensures Cell(rows, n + 1, start, now, grain, flag, q) == Cell(rows, n, start, now, grain, flag, q)
  {
  }

  lemma CellGrows(rows: seq<Row>, n: nat, start: int, now: int, grain: Grain, flag: Flag, q: int)
    requires n < |rows| && InRange(rows[n], start, flag) && ShownIn(rows[n].createdAt.value, now, grain) == q
    ensures Cell(rows, n + 1, start, now, grain, flag, q) == Cell(rows, n, start, now, grain, flag, q) + {n}
  {
  }

  lemma FilledSkips(cells: Cells, rows: seq<Row>, n: nat, start: int, now: int, grain: Grain, flag: Flag)
    requires n < |rows| && Filled(cells, rows, n, start, now, grain, flag) && !InRange(rows[n], start, flag)
    ensures Filled(cells, rows, n + 1, start, now, grain, flag)
  {
    forall q ensures At(cells, q * Step(grain)) == Cell(rows, n + 1, start, now, grain, flag, q) {
      CellSkips(rows, n, start, now, grain, flag, q);
    }
  }

  lemma FilledGrows(cells: Cells, rows: seq<Row>, n: nat, start: int, now: int, grain: Grain, flag: Flag)
    requires n < |rows| && Filled(cells, rows, n, start, now, grain, flag) && InRange(rows[n], start, flag)
    ensures var key := ShownIn(rows[n].createdAt.value, now, grain) * Step(grain);
            Filled(cells[key := At(cells, key) + {n}], rows, n + 1, start, now, grain, flag)
  {
    var shown := ShownIn(rows[n].createdAt.value, now, grain);
    var key := shown * Step(grain);
    forall q ensures At(cells[key := At(cells, key) + {n}], q * Step(grain)) == Cell(rows, n + 1, start, now, grain, flag, q) {
      if q == shown {
        CellGrows(rows, n, start, now, grain, flag, q);
      } else {
        CellSkips(rows, n, start, now, grain, flag, q);
        if q * Step(grain) == key { MulInjective(q, shown, Step(grain)); }
      }
    }
  }

  /** One row, as the loop over the rows places it under one flag. */
  method PlaceRow(cells: Cells, rows: seq<Row>, n: nat, start: int, now: int, grain: Grain, flag: Flag)
    returns (r: Cells)
    requires n < |rows| && Filled(cells, rows, n, start, now, grain, flag)
    ensures Filled(r, rows, n + 1, start, now, grain, flag)
  {
    if !Carries(rows[n], flag) {
      FilledSkips(cells, rows, n, start, now, grain, flag);
      return cells;
    }
    r := Place(cells, rows[n].createdAt, n, start, grain, Period(now, grain) * Step(grain));
    if InRange(rows[n], start, flag) {
      KeyIsShownPeriod(rows[n].createdAt.value, now, grain);
      FilledGrows(cells, rows, n, start, now, grain, flag);
    } else {
      FilledSkips(cells, rows, n, start, now, grain, flag);
    }
  }

  // ---------- the series ----------

  datatype Bucket = Bucket(t: int, ingested: nat, matched: nat, unmatched: nat, waiting: nat)

  function Size(b: Bucket, flag: Flag): nat {
    match flag
    case Ingested => b.ingested
    case Matched => b.matched
    case Unmatched => b.unmatched
    case Waiting => b.waiting
  }

  function Total(series: seq<Bucket>, flag: Flag): nat {
    if series == [] then 0 else Total(series[..|series| - 1], flag) + Size(series[|series| - 1], flag)
  }

  /** Bucket j counts exactly the rows shown in its period, for every flag. */
  ghost predicate CountsRows(series: seq<Bucket>, rows: seq<Row>, start: int, now: int, grain: Grain) {
    forall j, flag: Flag | 0 <= j < |series| ::
      Size(series[j], flag) == |Cell(rows, |rows|, start, now, grain, flag, Period(start, grain) + j)|
  }

  datatype Totals = Totals(ingested: nat, matched: nat, unmatched: nat, waiting: nat)

  method BuildTrendSeries(rows: seq<Row>, rangeKey: string, now: int)
    returns (start: int, series: seq<Bucket>, totals: Totals)
    ensures var (span, grain) := Range(rangeKey);
            && start == Align(now - span, grain)
            && |series| == Period(now, grain) - Period(start, grain) + 1
            && (forall j | 0 <= j < |series| :: series[j].t == (Period(start, grain) + j) * Step(grain))
            && CountsRows(series, rows, start, now, grain)
    ensures totals == Totals(|Counted(rows, start, Ingested)|, |Counted(rows, start, Matched)|,
                             |Counted(rows, start, Unmatched)|, |Counted(rows, start, Waiting)|)
  {
    var (span, grain) := Range(rangeKey);
    start := Align(now - span, grain);
    StartIsAligned(now, span, grain);
    var buckets := Buckets(start, now, grain);
    var ingested, matched, unmatched, waiting := PlaceAll(rows, start, now, grain);
    series := Series(buckets, ingested, matched, unmatched, waiting);
    SeriesCountsRows(series, buckets, ingested, matched, unmatched, waiting, rows, start, now, grain);
    totals := Totals(Total(series, Ingested), Total(series, Matched), Total(series, Unmatched), Total(series, Waiting));
    AllTotalsConserve(series, rows, start, now, grain);
  }

  lemma StartIsAligned(now: int, span: int, grain: Grain)
    requires span >= 0
    ensures var start := Align(now - span, grain);
            start <= now && start == Align(start, grain)
  {
    AlignStartsThePeriod(now - span, grain);
    PeriodOfAligned(Period(now - span, grain), grain);
    AlignStartsThePeriod(Align(now - span, grain), grain);
  }

  function RowOfSizes(key: int, ingested: Cells, matched: Cells, unmatched: Cells, waiting: Cells): Bucket {
    Bucket(key, |At(ingested, key)|, |At(matched, key)|, |At(unmatched, key)|, |At(waiting, key)|)
  }

  lemma SeriesCountsRows(series: seq<Bucket>, buckets: seq<int>, ingested: Cells, matched: Cells, unmatched: Cells,
                         waiting: Cells, rows: seq<Row>, start: int, now: int, grain: Grain)
    requires |series| == |buckets|
    requires forall j | 0 <= j < |buckets| :: buckets[j] == (Period(start, grain) + j) * Step(grain)
    requires forall j | 0 <= j < |buckets| :: series[j] == RowOfSizes(buckets[j], ingested, matched, unmatched, waiting)
    requires Filled(ingested, rows, |rows|, start, now, grain, Ingested)
    requires Filled(matched, rows, |rows|, start, now, grain, Matched)
    requires Filled(unmatched, rows, |rows|, start, now, grain, Unmatched)
    requires Filled(waiting, rows, |rows|, start, now, grain, Waiting)
    ensures CountsRows(series, rows, start, now, grain)
  {
    forall j, flag: Flag | 0 <= j < |series|
      ensures Size(series[j], flag) == |Cell(rows, |rows|, start, now, grain, flag, Period(start, grain) + j)|
    {
      var q := Period(start, grain) + j;
      assert buckets[j] == q * Step(grain);
    }
  }

  /** One bucket row per bucket, with the sizes of its four sets. */
  method Series(buckets: seq<int>, ingested: Cells, matched: Cells, unmatched: Cells, waiting: Cells)
    returns (series: seq<Bucket>)
    ensures |series| == |buckets|
    ensures forall j | 0 <= j < |buckets| :: series[j] == RowOfSizes(buckets[j], ingested, matched, unmatched, waiting)
  {
    series := [];
    for j := 0 to |buckets|
      invariant |series| == j
      invariant forall k | 0 <= k < j :: series[k] == RowOfSizes(buckets[k], ingested, matched, unmatched, waiting)
    {
      var key := buckets[j];
      series := series + [Bucket(key, |At(ingested, key)|, |At(matched, key)|, |At(unmatched, key)|, |At(waiting, key)|)];
    }
  }

  method PlaceAll(rows: seq<Row>, start: int, now: int, grain: Grain)
    returns (ingested: Cells, matched: Cells, unmatched: Cells, waiting: Cells)
    ensures Filled(ingested, rows, |rows|, start, now, grain, Ingested)
    ensures Filled(matched, rows, |rows|, start, now, grain, Matched)
    ensures Filled(unmatched, rows, |rows|, start, now, grain, Unmatched)
    ensures Filled(waiting, rows, |rows|, start, now, grain, Waiting)
  {
    ingested, matched, unmatched, waiting := map[], map[], map[], map[];
    for i := 0 to |rows|
      invariant Filled(ingested, rows, i, start, now, grain, Ingested)
      invariant Filled(matched, rows, i, start, now, grain, Matched)
      invariant Filled(unmatched, rows, i, start, now, grain, Unmatched)
      invariant Filled(waiting, rows, i, start, now, grain, Waiting)
    {
      ingested := PlaceRow(ingested, rows, i, start, now, grain, Ingested);
      matched := PlaceRow(matched, rows, i, start, now, grain, Matched);
      unmatched := PlaceRow(unmatched, rows, i, start, now, grain, Unmatched);
      waiting := PlaceRow(waiting, rows, i, start, now, grain, Waiting);
    }
  }

  // ---------- conservation ----------

  /** The rows that count under a flag, wherever they are shown. */
  ghost function Counted(rows: seq<Row>, start: int, flag: Flag): set<nat> {
    set i: nat | i < |rows| && InRange(rows[i], start, flag)
  }

  /** Every row that counts is shown in exactly one generated bucket. */
  lemma EveryCountedRowHasOneBucket(row: Row, start: int, now: int, grain: Grain, flag: Flag)
    requires start <= now && InRange(row, start, flag)
    ensures var shown := ShownIn(row.createdAt.value, now, grain);
            Period(start, grain) <= shown <= Period(now, grain)
  {
    PeriodIsMonotone(start, row.createdAt.value, grain);
    PeriodIsMonotone(start, now, grain);
  }

  ghost function CountedBefore(rows: seq<Row>, start: int, now: int, grain: Grain, flag: Flag, q: int): set<nat> {
    set i: nat | i < |rows| && InRange(rows[i], start, flag) && ShownIn(rows[i].createdAt.value, now, grain) < q
  }

  lemma OneMorePeriod(rows: seq<Row>, start: int, now: int, grain: Grain, flag: Flag, q: int)
    ensures |CountedBefore(rows, start, now, grain, flag, q + 1)| ==
            |CountedBefore(rows, start, now, grain, flag, q)| + |Cell(rows, |rows|, start, now, grain, flag, q)|
  {
    var before := CountedBefore(rows, start, now, grain, flag, q);
    var cell := Cell(rows, |rows|, start, now, grain, flag, q);
    assert CountedBefore(rows, start, now, grain, flag, q + 1) == before + cell;
    assert before * cell == {};
  }

  lemma NothingBeforeTheStart(rows: seq<Row>, start: int, now: int, grain: Grain, flag: Flag)
    requires start <= now
    ensures CountedBefore(rows, start, now, grain, flag, Period(start, grain)) == {}
  {
    forall i | i in CountedBefore(rows, start, now, grain, flag, Period(start, grain)) ensures false {
      EveryCountedRowHasOneBucket(rows[i], start, now, grain, flag);
    }
  }

  lemma {:induction false} PrefixConserves(series: seq<Bucket>, rows: seq<Row>, start: int, now: int, grain: Grain,
                                           flag: Flag)
    requires CountsRows(series, rows, start, now, grain) && start <= now
    ensures Total(series, flag) == |CountedBefore(rows, start, now, grain, flag, Period(start, grain) + |series|)|
  {
    if series == [] {
      NothingBeforeTheStart(rows, start, now, grain, flag);
    } else {
      var n := |series| - 1;
      PrefixConserves(series[..n], rows, start, now, grain, flag);
      OneMorePeriod(rows, start, now, grain, flag, Period(start, grain) + n);
      assert Size(series[n], flag) == |Cell(rows, |rows|, start, now, grain, flag, Period(start, grain) + n)|;
    }
  }

  /** Main result: the totals are the filtered row counts; no row is lost or counted twice. */
  lemma TotalsConserve(series: seq<Bucket>, rows: seq<Row>, start: int, now: int, grain: Grain, flag: Flag)
    requires start <= now && |series| == Period(now, grain) - Period(start, grain) + 1
    requires CountsRows(series, rows, start, now, grain)
    ensures Total(series, flag) == |Counted(rows, start, flag)|
  {
    PrefixConserves(series, rows, start, now, grain, flag);
    forall i | i in Counted(rows, start, flag)
      ensures i in CountedBefore(rows, start, now, grain, flag, Period(now, grain) + 1)
    {
      EveryCountedRowHasOneBucket(rows[i], start, now, grain, flag);
    }
    assert Counted(rows, start, flag) == CountedBefore(rows, start, now, grain, flag, Period(now, grain) + 1);
  }

  lemma AllTotalsConserve(series: seq<Bucket>, rows: seq<Row>, start: int, now: int, grain: Grain)
    requires start <= now && |series| == Period(now, grain) - Period(start, grain) + 1
    requires CountsRows(series, rows, start, now, grain)
    ensures forall flag: Flag :: Total(series, flag) == |Counted(rows, start, flag)|
  {
    forall flag: Flag {
      TotalsConserve(series, rows, start, now, grain, flag);
    }
  }

  lemma SmallerSet(a: set<nat>, b: set<nat>)
    requires a <= b
    ensures |a| <= |b|
  {
    assert b == a + (b - a);
  }

  /** No bucket shows more matched, unmatched or waiting CVEs than ingested ones. */
  lemma FlagsNeverExceedIngested(series: seq<Bucket>, rows: seq<Row>, start: int, now: int, grain: Grain, j: nat,
                                 flag: Flag)
    requires CountsRows(series, rows, start, now, grain) && j < |series|
    ensures Size(series[j], flag) <= series[j].ingested
  {
    var q := Period(start, grain) + j;
    SmallerSet(Cell(rows, |rows|, start, now, grain, flag, q), Cell(rows, |rows|, start, now, grain, Ingested, q));
    assert Size(series[j], Ingested) == series[j].ingested;
  }

  // ---------- the series, on the columns ----------

  /** How many buckets a range has: the whole periods of its span and the one that is running. */
  function BucketCount(key: string, now: int): nat {
    if key == "24h" then 25 else if key == "30d" then 31
    else if key == "90d" then (if Weekday(now) == 6 then 13 else 14)
    else 8
  }

  lemma PeriodsInSpan(now: int, n: int, step: int)
    requires step > 0
    ensures now / step - (now - n * step) / step == n
  {
    assert now - n * step == (now / step - n) * step + now % step;
    DivOf(now / step - n, now % step, step);
  }

  lemma PeriodIff(moment: int, q: int, step: int)
    requires step > 0
    ensures moment / step >= q <==> moment >= q * step
  {
    var p := moment / step;
    assert p * step <= moment < p * step + step;
    if p >= q {
      MulMonotone(q, p, step);
    } else {
      MulMonotone(p + 1, q, step);
      assert (p + 1) * step == p * step + step;
    }
  }

  lemma DivOf(q: int, r: int, step: int)
    requires 0 <= r < step
    ensures (q * step + r) / step == q
  {
    PeriodIff(q * step + r, q, step);
    PeriodIff(q * step + r, q + 1, step);
    assert (q + 1) * step == q * step + step;
  }

  /** Ninety days are twelve weeks and six days: only on a Sunday they begin twelve weeks before the running one. */
  lemma WeeksInNinetyDays(now: int)
    ensures now / (7 * DAY) - (now - 90 * DAY) / (7 * DAY) == if Weekday(now) == 6 then 12 else 13
  {
    var week, day, rest := 7 * DAY, Weekday(now), now % DAY;
    MondayStartsTheWeek(now);
    var q := now / week;
    assert now == q * week + (day * DAY + rest);
    if day == 6 {
      DivOf(q - 12, rest, week);
    } else {
      DivOf(q - 13, (day + 1) * DAY + rest, week);
    }
  }

  /** Hours for a day, days for a week or a month, weeks for ninety days; any other key is a week. */
  lemma RangeHasItsBuckets(key: string, now: int)
    ensures var (span, grain) := Range(key);
            && (key == "24h" ==> grain == Hour) && (key == "90d" ==> grain == Week)
            && (key != "24h" && key != "90d" ==> grain == Day)
            && Period(now, grain) - Period(Align(now - span, grain), grain) + 1 == BucketCount(key, now)
  {
    var (span, grain) := Range(key);
    AlignStartsThePeriod(now - span, grain);
    PeriodOfAligned(Period(now - span, grain), grain);
    if key == "24h" { PeriodsInSpan(now, 24, HOUR); }
    else if key == "30d" { PeriodsInSpan(now, 30, DAY); }
    else if key == "90d" { WeeksInNinetyDays(now); }
    else { PeriodsInSpan(now, 7, DAY); }
  }

  /** The row is stamped inside the bucket, or in the last bucket or later when this is the last one, and has the flag. */
  ghost predicate BelongsTo(row: Row, from: int, step: int, last: bool, flag: Flag) {
    && row.createdAt.Some? && from <= row.createdAt.value && (last || row.createdAt.value < from + step)
    && (flag == Matched ==> row.matched) && (flag == Unmatched ==> row.unmatched) && (flag == Waiting ==> row.waiting)
  }

  lemma ShownOnColumns(row: Row, start: int, now: int, grain: Grain, flag: Flag, q: int)
    requires start == Period(start, grain) * Step(grain) && Period(start, grain) <= q <= Period(now, grain)
    ensures InRange(row, start, flag) && ShownIn(row.createdAt.value, now, grain) == q <==>
            BelongsTo(row, q * Step(grain), Step(grain), q == Period(now, grain), flag)
  {
    if row.createdAt.Some? {
      var moment, step := row.createdAt.value, Step(grain);
      PeriodIff(moment, q, step);
      PeriodIff(moment, q + 1, step);
      assert (q + 1) * step == q * step + step;
      PeriodIff(moment, Period(start, grain), step);
    }
  }

  /** Main result on the columns: the series of a range has its number of consecutive buckets, from the start of the period
      in which the range begins, and each counts exactly the rows with the flag that are stamped in it; the last one also
      counts the rows stamped after it. */
  lemma TrendOnTheRows(rows: seq<Row>, key: string, now: int, start: int, series: seq<Bucket>)
    requires var (span, grain) := Range(key);
             && start == Align(now - span, grain)
             && |series| == Period(now, grain) - Period(start, grain) + 1
             && (forall j | 0 <= j < |series| :: series[j].t == (Period(start, grain) + j) * Step(grain))
             && CountsRows(series, rows, start, now, grain)
    ensures |series| == BucketCount(key, now)
    ensures var step := if key == "24h" then HOUR else if key == "90d" then 7 * DAY else DAY;
            && (forall j | 0 <= j < |series| :: series[j].t == start + j * step)
            && series[|series| - 1].t <= now < series[|series| - 1].t + step
            && forall j: nat, flag: Flag | j < |series| ::
                 Size(series[j], flag) ==
                 |set i: nat | i < |rows| && BelongsTo(rows[i], series[j].t, step, j == |series| - 1, flag)|
  {
    var (span, grain) := Range(key);
    RangeHasItsBuckets(key, now);
    StartIsAligned(now, span, grain);
    AlignStartsThePeriod(start, grain);
    AlignStartsThePeriod(now, grain);
    forall j | 0 <= j < |series| ensures series[j].t == start + j * Step(grain) {
      Distribute(Period(start, grain), j, Step(grain));
    }
    forall j: nat, flag: Flag | j < |series|
      ensures Size(series[j], flag) ==
              |set i: nat | i < |rows| && BelongsTo(rows[i], series[j].t, Step(grain), j == |series| - 1, flag)|
    {
      CellOnColumns(rows, start, now, grain, flag, Period(start, grain) + j);
    }
  }

  lemma CellOnColumns(rows: seq<Row>, start: int, now: int, grain: Grain, flag: Flag, q: int)
    requires start == Period(start, grain) * Step(grain) && Period(start, grain) <= q <= Period(now, grain)
    ensures Cell(rows, |rows|, start, now, grain, flag, q) ==
            set i: nat | i < |rows| && BelongsTo(rows[i], q * Step(grain), Step(grain), q == Period(now, grain), flag)
  {
    forall i: nat | i < |rows| {
      ShownOnColumns(rows[i], start, now, grain, flag, q);
    }
  }
}
