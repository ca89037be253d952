/**
 * The dashboard's derived data (components/Dashboard.tsx): the time-window
 * filter with its newest-first ordering, the six-counter summary, the
 * per-telecaller leaderboard and the per-day chart series. Clock and locale
 * calls are parameters: the window bounds are given, `toLocaleDateString` is
 * an arbitrary `dayKey`, and the chart's re-parsing of a day string is an
 * arbitrary `parseDay`.
 */
module Dashboard {
  import opened Types
  import opened Wrappers
  import opened Seqs
  import opened Grouping

  // ---- Time window -----------------------------------------------------------

  datatype FilterType = Today | Week | Month | All

  const DayMs: int := 86400000

  /** The three lower bounds the filter compares a report's date with. */
  datatype WindowBounds = WindowBounds(today: int, startOfWeek: int, startOfMonth: int)
  {
    /** Both the week and the month start no later than today does. */
    predicate Valid()
    {
      startOfWeek <= today && startOfMonth <= today
    }
  }

  /**
   * The bounds computed from the current local midnight, the weekday (0 for
   * Sunday) and the day of the month, counting days as 24 hours.
   */
  function BoundsAt(midnight: int, weekday: nat, dayOfMonth: nat): (b: WindowBounds)
    requires weekday <= 6 && 1 <= dayOfMonth <= 31
    ensures b.Valid() && b.today == midnight
    ensures b.today - b.startOfWeek == weekday * DayMs
    ensures b.today - b.startOfMonth == (dayOfMonth - 1) * DayMs
  {
    WindowBounds(midnight, midnight - weekday * DayMs, midnight - (dayOfMonth - 1) * DayMs)
  }

  predicate InWindow(r: DailyReport, f: FilterType, b: WindowBounds)
  {
    match f
    case Today => r.date >= b.today
    case Week => r.date >= b.startOfWeek
    case Month => r.date >= b.startOfMonth
    case All => true
  }

  function InPeriod(f: FilterType, b: WindowBounds): DailyReport -> bool
  {
    (r: DailyReport) => InWindow(r, f, b)
  }

  function DateOf(r: DailyReport): int { r.date }

  /**
   * `filteredReports`: the reports inside the window, newest first. Each
   * report of the window is kept as many times as the input holds it, and
   * nothing outside the window is.
   */
  function FilteredReports(reports: seq<DailyReport>, f: FilterType, b: WindowBounds): (r: seq<DailyReport>)
    ensures SortedDescBy(r, DateOf)
    ensures forall i :: 0 <= i < |r| ==> InWindow(r[i], f, b)
    ensures forall x :: multiset(r)[x] == if InWindow(x, f, b) then multiset(reports)[x] else 0
  {
    var window := Filter(reports, InPeriod(f, b));
    var r := SortDescBy(window, DateOf);
    FilterMultiset(reports, InPeriod(f, b));
    assert forall i :: 0 <= i < |r| ==> InWindow(r[i], f, b) by {
      forall i | 0 <= i < |r| ensures InWindow(r[i], f, b) {
        assert r[i] in multiset(window);
      }
    }
    r
  }

  /** With the `'all'` filter, the list is the whole input, only reordered. */
  lemma AllKeepsEveryReport(reports: seq<DailyReport>, b: WindowBounds)
    ensures FilteredReports(reports, All, b) == SortDescBy(reports, DateOf)
    ensures multiset(FilteredReports(reports, All, b)) == multiset(reports)
  {
    FilterKeepsAll(reports, InPeriod(All, b));
  }

  /** A report shown under `'today'` is also shown under `'week'` and under `'month'`. */
  lemma TodayWithinWeekAndMonth(reports: seq<DailyReport>, b: WindowBounds)
    requires b.Valid()
    ensures multiset(FilteredReports(reports, Today, b)) <= multiset(FilteredReports(reports, Week, b))
    ensures multiset(FilteredReports(reports, Today, b)) <= multiset(FilteredReports(reports, Month, b))
  {
    var today := multiset(FilteredReports(reports, Today, b));
    var week := multiset(FilteredReports(reports, Week, b));
    var month := multiset(FilteredReports(reports, Month, b));
    forall x ensures today[x] <= week[x] && today[x] <= month[x] {
      if InWindow(x, Today, b) {
        assert InWindow(x, Week, b) && InWindow(x, Month, b);
      }
    }
  }

  // ---- Counters and the summary ---------------------------------------------

  /** The six quantities a report contributes to the totals. */
  datatype Counter = CallsDialed | CallsConnected | ProjectsExplained | ScheduledVisits | CompletedVisits | Leads

  function Count(r: DailyReport, c: Counter): nat
  {
    match c
    case CallsDialed => r.callsDialed
    case CallsConnected => r.callsConnected
    case ProjectsExplained => r.projectsExplained
    case ScheduledVisits => |r.scheduledVisits|
    case CompletedVisits => |r.completedVisits|
    case Leads => |r.leads|
  }

  function CounterOf(c: Counter): DailyReport -> nat
  {
    (r: DailyReport) => Count(r, c)
  }

  /** The sum of counter `c` over the reports. */
  function Total(reports: seq<DailyReport>, c: Counter): nat
  {
    SumOf(reports, CounterOf(c))
  }

  lemma TotalSnoc(reports: seq<DailyReport>, r: DailyReport, c: Counter)
    ensures Total(reports + [r], c) == Total(reports, c) + Count(r, c)
  {
    SumOfAppend(reports, [r], CounterOf(c));
    assert [r][1..] == [];
  }

  /** The `summaryStats` accumulator. */
  datatype SummaryStats = SummaryStats(
    callsDialed: nat, callsConnected: nat, projectsExplained: nat,
    scheduledVisits: nat, completedVisits: nat, leads: nat)
  {
    function Get(c: Counter): nat
    {
      match c
      case CallsDialed => callsDialed
      case CallsConnected => callsConnected
      case ProjectsExplained => projectsExplained
      case ScheduledVisits => scheduledVisits
      case CompletedVisits => completedVisits
      case Leads => leads
    }
  }

  /**
   * `summaryStats`: one pass over the filtered reports, adding each report's
   * counters into the accumulator. Each total is the sum of its counter.
   */
  method Summarize(filtered: seq<DailyReport>) returns (acc: SummaryStats)
    ensures forall c :: acc.Get(c) == Total(filtered, c)
    ensures filtered == [] ==> acc == SummaryStats(0, 0, 0, 0, 0, 0)
  {
    acc := SummaryStats(0, 0, 0, 0, 0, 0);
    for i := 0 to |filtered|
      invariant forall c :: acc.Get(c) == Total(filtered[..i], c)
    {
      var r := filtered[i];
      ghost var before := acc;
      acc := acc.(callsDialed := acc.callsDialed + r.callsDialed);
      acc := acc.(callsConnected := acc.callsConnected + r.callsConnected);
      acc := acc.(projectsExplained := acc.projectsExplained + r.projectsExplained);
      acc := acc.(scheduledVisits := acc.scheduledVisits + |r.scheduledVisits|);
      acc := acc.(completedVisits := acc.completedVisits + |r.completedVisits|);
      acc := acc.(leads := acc.leads + |r.leads|);
      assert filtered[..i + 1] == filtered[..i] + [r];
      forall c ensures acc.Get(c) == Total(filtered[..i + 1], c) {
        TotalSnoc(filtered[..i], r, c);
        assert acc.Get(c) == before.Get(c) + Count(r, c);
      }
    }
    assert filtered[..|filtered|] == filtered;
    if filtered == [] {
      assert acc.callsDialed == acc.Get(CallsDialed) == 0;
      assert acc.callsConnected == acc.Get(CallsConnected) == 0;
      assert acc.projectsExplained == acc.Get(ProjectsExplained) == 0;
      assert acc.scheduledVisits == acc.Get(ScheduledVisits) == 0;
      assert acc.completedVisits == acc.Get(CompletedVisits) == 0;
      assert acc.leads == acc.Get(Leads) == 0;
    }
  }

  /** The newest-first order does not change the totals: they are the window's totals in store order. */
  lemma TotalOfFiltered(reports: seq<DailyReport>, f: FilterType, b: WindowBounds, c: Counter)
    ensures Total(FilteredReports(reports, f, b), c) == Total(Filter(reports, InPeriod(f, b)), c)
  {
    var w := Filter(reports, InPeriod(f, b));
    SumOfPermutation(FilteredReports(reports, f, b), w, CounterOf(c));
  }

  /** Under `'all'` the totals are those of the whole input. */
  lemma TotalOfAll(reports: seq<DailyReport>, b: WindowBounds, c: Counter)
    ensures Total(FilteredReports(reports, All, b), c) == Total(reports, c)
  {
    AllKeepsEveryReport(reports, b);
    SumOfPermutation(FilteredReports(reports, All, b), reports, CounterOf(c));
  }

  /** Dropping reports never raises a total. */
  lemma {:induction false} FilterTotalAtMost(reports: seq<DailyReport>, p: DailyReport -> bool, c: Counter)
    ensures Total(Filter(reports, p), c) <= Total(reports, c)
  {
    if reports != [] {
      FilterTotalAtMost(reports[1..], p, c);
    }
  }

  /** Filtering by a narrower window after a wider one is filtering by the narrower one. */
  lemma {:induction false} FilterNarrower(reports: seq<DailyReport>, narrow: FilterType, wide: FilterType, b: WindowBounds)
    requires forall r :: InWindow(r, narrow, b) ==> InWindow(r, wide, b)
    ensures Filter(Filter(reports, InPeriod(wide, b)), InPeriod(narrow, b)) == Filter(reports, InPeriod(narrow, b))
  {
    if reports != [] {
      FilterNarrower(reports[1..], narrow, wide, b);
    }
  }

  /** Today's totals never exceed this week's or this month's. */
  lemma TodayTotalsAtMost(reports: seq<DailyReport>, b: WindowBounds, c: Counter)
    requires b.Valid()
    ensures Total(FilteredReports(reports, Today, b), c) <= Total(FilteredReports(reports, Week, b), c)
    ensures Total(FilteredReports(reports, Today, b), c) <= Total(FilteredReports(reports, Month, b), c)
  {
    TotalOfFiltered(reports, Today, b, c);
    TotalOfFiltered(reports, Week, b, c);
    TotalOfFiltered(reports, Month, b, c);
    FilterNarrower(reports, Today, Week, b);
    FilterNarrower(reports, Today, Month, b);
    FilterTotalAtMost(Filter(reports, InPeriod(Week, b)), InPeriod(Today, b), c);
    FilterTotalAtMost(Filter(reports, InPeriod(Month, b)), InPeriod(Today, b), c);
  }

  // ---- Per-telecaller leaderboard ------------------------------------------

  /** One telecaller's accumulated stats, as stored under their name. */
  datatype TelecallerStat = TelecallerStat(
    callsDialed: nat, callsConnected: nat, projectsExplained: nat,
    scheduledVisits: nat, completedVisits: nat, leads: nat, reportCount: nat)

  /** A leaderboard entry: `{ name, ...data }`. */
  datatype TelecallerRow = TelecallerRow(
    name: string,
    callsDialed: nat, callsConnected: nat, projectsExplained: nat,
    scheduledVisits: nat, completedVisits: nat, leads: nat, reportCount: nat)

  function NameOf(r: DailyReport): string { r.telecallerName }

  /**
   * The record entry `acc[name]` once the reports `g` of that name are in:
   * the group's six totals and its size. The name is the record's key and is
   * not part of the entry.
   */
  function StatOf(name: string, g: seq<DailyReport>): TelecallerStat
  {
    TelecallerStat(Total(g, CallsDialed), Total(g, CallsConnected), Total(g, ProjectsExplained),
                   Total(g, ScheduledVisits), Total(g, CompletedVisits), Total(g, Leads), |g|)
  }

  /** `Object.entries(...).map(([name, data]) => ({ name, ...data }))` for one entry. */
  function EntryRow(name: string, st: TelecallerStat): TelecallerRow
  {
    TelecallerRow(name, st.callsDialed, st.callsConnected, st.projectsExplained,
                  st.scheduledVisits, st.completedVisits, st.leads, st.reportCount)
  }

  function RowOf(name: string, g: seq<DailyReport>): TelecallerRow
  {
    EntryRow(name, StatOf(name, g))
  }

  function RowName(row: TelecallerRow): string { row.name }
  function RowCalls(row: TelecallerRow): int { row.callsDialed }
  function RowReports(row: TelecallerRow): nat { row.reportCount }

  function RowCounter(c: Counter): TelecallerRow -> nat
  {
    (row: TelecallerRow) => match c
      case CallsDialed => row.callsDialed
      case CallsConnected => row.callsConnected
      case ProjectsExplained => row.projectsExplained
      case ScheduledVisits => row.scheduledVisits
      case CompletedVisits => row.completedVisits
      case Leads => row.leads
  }

  /**
   * The leaderboard the dashboard shows a manager: one row per telecaller
   * name, names in order of first appearance, then sorted (stably) by calls
   * dialed, most first.
   */
  function Leaderboard(filtered: seq<DailyReport>): (rows: seq<TelecallerRow>)
    ensures SortedDescBy(rows, RowCalls)
  {
    SortDescBy(GroupRows(filtered, NameOf, KeysInOrder(filtered, NameOf), RowOf), RowCalls)
  }

  /** Adds one report into a telecaller's accumulated stats. */
  function AddToStat(st: TelecallerStat, r: DailyReport): TelecallerStat
  {
    st.(callsDialed := st.callsDialed + r.callsDialed,
        callsConnected := st.callsConnected + r.callsConnected,
        projectsExplained := st.projectsExplained + r.projectsExplained,
        scheduledVisits := st.scheduledVisits + |r.scheduledVisits|,
        completedVisits := st.completedVisits + |r.completedVisits|,
        leads := st.leads + |r.leads|,
        reportCount := st.reportCount + 1)
  }

  /** Appending a report to a group adds it into the group's stats. */
  lemma StatOfSnoc(name: string, g: seq<DailyReport>, r: DailyReport)
    ensures StatOf(name, g + [r]) == AddToStat(StatOf(name, g), r)
  {
    TotalSnoc(g, r, CallsDialed);
    TotalSnoc(g, r, CallsConnected);
    TotalSnoc(g, r, ProjectsExplained);
    TotalSnoc(g, r, ScheduledVisits);
    TotalSnoc(g, r, CompletedVisits);
    TotalSnoc(g, r, Leads);
  }

  /**
   * `telecallerStats`: nothing unless the viewer is a manager; otherwise a pass
   * over the filtered reports that creates a zeroed entry for a name the first
   * time it is met and adds every report into its name's entry, then the
   * entries in insertion order, sorted by calls dialed, most first.
   */
  method TelecallerStats(filtered: seq<DailyReport>, role: Role) returns (stats: Option<seq<TelecallerRow>>)
    ensures stats.None? <==> role != Manager
    ensures stats.Some? ==> stats.value == Leaderboard(filtered)
  {
    if role != Manager {
      return None;
    }
    var acc, names := AccumulateStats(filtered);
    EntriesAreRows(filtered, acc, names);
    stats := Some(SortDescBy(Entries(acc, names), RowCalls));
  }

  /** One report folded into the per-name record keeps it equal to the per-name groups' stats. */
  lemma StatStep(filtered: seq<DailyReport>, i: nat, acc0: map<string, TelecallerStat>, names0: seq<string>,
                 entry: TelecallerStat, acc: map<string, TelecallerStat>, names: seq<string>)
    requires i < |filtered|
    requires Accumulated(filtered[..i], NameOf, StatOf, acc0, names0)
    requires names == if filtered[i].telecallerName in acc0 then names0 else names0 + [filtered[i].telecallerName]
    requires entry == if filtered[i].telecallerName in acc0 then acc0[filtered[i].telecallerName]
                      else TelecallerStat(0, 0, 0, 0, 0, 0, 0)
    requires acc == acc0[filtered[i].telecallerName := AddToStat(entry, filtered[i])]
    ensures Accumulated(filtered[..i + 1], NameOf, StatOf, acc, names)
  {
    assert filtered[..i + 1] == filtered[..i] + [filtered[i]];
    StatFold(filtered[..i], filtered[i], acc0, names0, entry, acc, names);
  }

  lemma StatFold(s: seq<DailyReport>, r: DailyReport, acc0: map<string, TelecallerStat>, names0: seq<string>,
                 entry: TelecallerStat, acc: map<string, TelecallerStat>, names: seq<string>)
    requires Accumulated(s, NameOf, StatOf, acc0, names0)
    requires names == if r.telecallerName in acc0 then names0 else names0 + [r.telecallerName]
    requires entry == if r.telecallerName in acc0 then acc0[r.telecallerName] else TelecallerStat(0, 0, 0, 0, 0, 0, 0)
    requires acc == acc0[r.telecallerName := AddToStat(entry, r)]
    ensures Accumulated(s + [r], NameOf, StatOf, acc, names)
  {
    var name := r.telecallerName;
    if name !in acc0 {
      AccumulatedAbsent(s, NameOf, StatOf, acc0, names0, name);
    }
    GroupAppend(s, r, NameOf, name);
    StatOfSnoc(name, Group(s, NameOf, name), r);
    AccumulateStep(s, r, NameOf, StatOf, acc0, names0, acc, names);
  }

  /**
   * The `reduce` of `telecallerStats`: a zeroed entry for a name the first
   * time it is met, and every report added into its name's entry.
   */
  method AccumulateStats(filtered: seq<DailyReport>) returns (acc: map<string, TelecallerStat>, names: seq<string>)
    ensures Accumulated(filtered, NameOf, StatOf, acc, names)
  {
    acc, names := map[], [];
    AccumulatedEmpty(NameOf, StatOf);
    for i := 0 to |filtered|
      invariant Accumulated(filtered[..i], NameOf, StatOf, acc, names)
    {
      var r := filtered[i];
      var name := r.telecallerName;
      ghost var (acc0, names0) := (acc, names);
      var entry := TelecallerStat(0, 0, 0, 0, 0, 0, 0);
      if name in acc {
        entry := acc[name];
      } else {
        names := names + [name];
      }
      acc := acc[name := AddToStat(entry, r)];
      StatStep(filtered, i, acc0, names0, entry, acc, names);
    }
    assert filtered[..|filtered|] == filtered;
  }

  /** `Object.entries(statsByName).map(([name, data]) => ({ name, ...data }))`. */
  function Entries(acc: map<string, TelecallerStat>, names: seq<string>): seq<TelecallerRow>
    requires forall n :: n in names ==> n in acc
  {
    seq(|names|, j requires 0 <= j < |names| => EntryRow(names[j], acc[names[j]]))
  }

  /** After the whole pass, the sorted entries are the leaderboard. */
  lemma EntriesAreRows(s: seq<DailyReport>, acc: map<string, TelecallerStat>, names: seq<string>)
    requires Accumulated(s, NameOf, StatOf, acc, names)
    ensures forall n :: n in names ==> n in acc
    ensures SortDescBy(Entries(acc, names), RowCalls) == Leaderboard(s)
  {
    var rows := GroupRows(s, NameOf, names, RowOf);
    var entries := Entries(acc, names);
    forall j | 0 <= j < |names| ensures entries[j] == rows[j] {
      assert acc[names[j]] == StatOf(names[j], Group(s, NameOf, names[j]));
    }
    assert entries == rows;
  }

  /** The leaderboard is ordered by calls dialed, most first. */
  lemma LeaderboardSorted(filtered: seq<DailyReport>)
    ensures forall i, j :: 0 <= i < j < |Leaderboard(filtered)| ==>
              Leaderboard(filtered)[i].callsDialed >= Leaderboard(filtered)[j].callsDialed
  {
  }

  /** No two leaderboard rows share a name. */
  lemma LeaderboardNamesDistinct(filtered: seq<DailyReport>)
    ensures DistinctBy(Leaderboard(filtered), RowName)
  {
    var ks := KeysInOrder(filtered, NameOf);
    var rows := GroupRows(filtered, NameOf, ks, RowOf);
    GroupRowsDistinct(filtered, NameOf, ks, RowOf, RowName);
    SortDescByDistinctBy(rows, RowCalls, RowName);
  }

  /** Each row holds exactly the stats of the reports carrying its name. */
  lemma LeaderboardRowsAreGroups(filtered: seq<DailyReport>)
    ensures forall row :: row in Leaderboard(filtered) ==>
              row == RowOf(row.name, Group(filtered, NameOf, row.name))
  {
    var ks := KeysInOrder(filtered, NameOf);
    var rows := GroupRows(filtered, NameOf, ks, RowOf);
    SortDescByMembers(rows, RowCalls);
    GroupRowsMembers(filtered, NameOf, ks, RowOf, RowName);
  }

  /** The leaderboard names exactly the telecallers who have a filtered report. */
  lemma LeaderboardNames(filtered: seq<DailyReport>)
    ensures Tags(Leaderboard(filtered), RowName) == Tags(filtered, NameOf)
  {
    var rows := GroupRows(filtered, NameOf, KeysInOrder(filtered, NameOf), RowOf);
    SortDescByTags(rows, RowCalls, RowName);
    GroupRowsTags(filtered, NameOf, RowOf, RowName);
  }

  /** Each column of the leaderboard adds up to the summary total of that counter. */
  lemma LeaderboardTotals(filtered: seq<DailyReport>, c: Counter)
    ensures SumOf(Leaderboard(filtered), RowCounter(c)) == Total(filtered, c)
  {
    var rows := GroupRows(filtered, NameOf, KeysInOrder(filtered, NameOf), RowOf);
    SumOfPermutation(Leaderboard(filtered), rows, RowCounter(c));
    GroupRowsTotal(filtered, NameOf, RowOf, RowCounter(c), CounterOf(c));
  }

  function One(r: DailyReport): nat { 1 }

  /** The report counts add up to the number of filtered reports: every report is counted once. */
  lemma LeaderboardCountsEveryReport(filtered: seq<DailyReport>)
    ensures SumOf(Leaderboard(filtered), RowReports) == |filtered|
  {
    var rows := GroupRows(filtered, NameOf, KeysInOrder(filtered, NameOf), RowOf);
    SumOfPermutation(Leaderboard(filtered), rows, RowReports);
    forall k, g ensures RowReports(RowOf(k, g)) == SumOf(g, One) {
      SumOfOnes(g, One);
    }
    GroupRowsTotal(filtered, NameOf, RowOf, RowReports, One);
    SumOfOnes(filtered, One);
  }

  // ---- Per-day chart series --------------------------------------------------

  /** A chart point: a day key and three totals. */
  datatype ChartPoint = ChartPoint(date: string, callsDialed: nat, callsConnected: nat, scheduledVisits: nat)

  /** The grouping key `new Date(report.date).toLocaleDateString()`. */
  function ByDay(dayKey: int -> string): DailyReport -> string
  {
    (r: DailyReport) => dayKey(r.date)
  }

  function PointOf(day: string, g: seq<DailyReport>): ChartPoint
  {
    ChartPoint(day, Total(g, CallsDialed), Total(g, CallsConnected), Total(g, ScheduledVisits))
  }

  function PointDay(p: ChartPoint): string { p.date }

  /** Sorting key for "earliest day first": the re-parsed day, negated for a descending sort. */
  function EarliestFirst(parseDay: string -> int): ChartPoint -> int
  {
    (p: ChartPoint) => -parseDay(p.date)
  }

  /** Counters a chart point carries. */
  predicate Charted(c: Counter)
  {
    c == CallsDialed || c == CallsConnected || c == ScheduledVisits
  }

  function PointCounter(c: Counter): ChartPoint -> nat
    requires Charted(c)
  {
    (p: ChartPoint) => match c
      case CallsDialed => p.callsDialed
      case CallsConnected => p.callsConnected
      case ScheduledVisits => p.scheduledVisits
  }

  /** The chart series: one point per day key present, earliest day first. */
  function Chart(filtered: seq<DailyReport>, dayKey: int -> string, parseDay: string -> int): (points: seq<ChartPoint>)
    ensures SortedDescBy(points, EarliestFirst(parseDay))
  {
    SortDescBy(GroupRows(filtered, ByDay(dayKey), KeysInOrder(filtered, ByDay(dayKey)), PointOf),
               EarliestFirst(parseDay))
  }

  function AddToPoint(p: ChartPoint, r: DailyReport): ChartPoint
  {
    p.(callsDialed := p.callsDialed + r.callsDialed,
       callsConnected := p.callsConnected + r.callsConnected,
       scheduledVisits := p.scheduledVisits + |r.scheduledVisits|)
  }

  lemma PointOfSnoc(day: string, g: seq<DailyReport>, r: DailyReport)
    ensures PointOf(day, g + [r]) == AddToPoint(PointOf(day, g), r)
  {
    TotalSnoc(g, r, CallsDialed);
    TotalSnoc(g, r, CallsConnected);
    TotalSnoc(g, r, ScheduledVisits);
  }

  /**
   * `chartData`: a pass over the filtered reports that creates a zeroed point
   * for a day the first time it is met and adds every report into its day's
   * point, then the points in insertion order, sorted by day, earliest first.
   */
  method ChartData(filtered: seq<DailyReport>, dayKey: int -> string, parseDay: string -> int)
    returns (points: seq<ChartPoint>)
    ensures points == Chart(filtered, dayKey, parseDay)
  {
    var acc, days := AccumulatePoints(filtered, dayKey);
    ValuesAreRows(filtered, dayKey, parseDay, acc, days);
    points := SortDescBy(DayPoints(acc, days), EarliestFirst(parseDay));
  }

  /** One report folded into the per-day record keeps it equal to the per-day groups' points. */
  lemma PointStep(filtered: seq<DailyReport>, i: nat, dayKey: int -> string,
                  acc0: map<string, ChartPoint>, days0: seq<string>, point: ChartPoint,
                  acc: map<string, ChartPoint>, days: seq<string>)
    requires i < |filtered|
    requires Accumulated(filtered[..i], ByDay(dayKey), PointOf, acc0, days0)
    requires days == if dayKey(filtered[i].date) in acc0 then days0 else days0 + [dayKey(filtered[i].date)]
    requires point == if dayKey(filtered[i].date) in acc0 then acc0[dayKey(filtered[i].date)]
                      else ChartPoint(dayKey(filtered[i].date), 0, 0, 0)
    requires acc == acc0[dayKey(filtered[i].date) := AddToPoint(point, filtered[i])]
    ensures Accumulated(filtered[..i + 1], ByDay(dayKey), PointOf, acc, days)
  {
    assert filtered[..i + 1] == filtered[..i] + [filtered[i]];
    PointFold(filtered[..i], filtered[i], dayKey, acc0, days0, point, acc, days);
  }

  lemma PointFold(s: seq<DailyReport>, r: DailyReport, dayKey: int -> string,
                  acc0: map<string, ChartPoint>, days0: seq<string>, point: ChartPoint,
                  acc: map<string, ChartPoint>, days: seq<string>)
    requires Accumulated(s, ByDay(dayKey), PointOf, acc0, days0)
    requires days == if dayKey(r.date) in acc0 then days0 else days0 + [dayKey(r.date)]
    requires point == if dayKey(r.date) in acc0 then acc0[dayKey(r.date)] else ChartPoint(dayKey(r.date), 0, 0, 0)
    requires acc == acc0[dayKey(r.date) := AddToPoint(point, r)]
    ensures Accumulated(s + [r], ByDay(dayKey), PointOf, acc, days)
  {
    var day := dayKey(r.date);
    if day !in acc0 {
      AccumulatedAbsent(s, ByDay(dayKey), PointOf, acc0, days0, day);
    }
    GroupAppend(s, r, ByDay(dayKey), day);
    PointOfSnoc(day, Group(s, ByDay(dayKey), day), r);
    AccumulateStep(s, r, ByDay(dayKey), PointOf, acc0, days0, acc, days);
  }

  /**
   * The `reduce` of `chartData`: a zeroed point for a day the first time it
   * is met, and every report added into its day's point.
   */
  method AccumulatePoints(filtered: seq<DailyReport>, dayKey: int -> string)
    returns (acc: map<string, ChartPoint>, days: seq<string>)
    ensures Accumulated(filtered, ByDay(dayKey), PointOf, acc, days)
  {
    acc, days := map[], [];
    AccumulatedEmpty(ByDay(dayKey), PointOf);
    for i := 0 to |filtered|
      invariant Accumulated(filtered[..i], ByDay(dayKey), PointOf, acc, days)
    {
      var r := filtered[i];
      var day := dayKey(r.date);
      ghost var (acc0, days0) := (acc, days);
      var point := ChartPoint(day, 0, 0, 0);
      if day in acc {
        point := acc[day];
      } else {
        days := days + [day];
      }
      acc := acc[day := AddToPoint(point, r)];
      PointStep(filtered, i, dayKey, acc0, days0, point, acc, days);
    }
    assert filtered[..|filtered|] == filtered;
  }

  /** `Object.values(reportsByDate)`: the points in the order their days were first met. */
  function DayPoints(acc: map<string, ChartPoint>, days: seq<string>): seq<ChartPoint>
    requires forall d :: d in days ==> d in acc
  {
    seq(|days|, j requires 0 <= j < |days| => acc[days[j]])
  }

  /** After the whole pass, the sorted values are the chart series. */
  lemma ValuesAreRows(s: seq<DailyReport>, dayKey: int -> string, parseDay: string -> int,
                      acc: map<string, ChartPoint>, days: seq<string>)
    requires Accumulated(s, ByDay(dayKey), PointOf, acc, days)
    ensures forall d :: d in days ==> d in acc
    ensures SortDescBy(DayPoints(acc, days), EarliestFirst(parseDay)) == Chart(s, dayKey, parseDay)
  {
    assert DayPoints(acc, days) == GroupRows(s, ByDay(dayKey), days, PointOf);
  }

  /** The series runs from the earliest day to the latest. */
  lemma ChartAscending(filtered: seq<DailyReport>, dayKey: int -> string, parseDay: string -> int)
    ensures forall i, j :: 0 <= i < j < |Chart(filtered, dayKey, parseDay)| ==>
              parseDay(Chart(filtered, dayKey, parseDay)[i].date) <= parseDay(Chart(filtered, dayKey, parseDay)[j].date)
  {
    var points := Chart(filtered, dayKey, parseDay);
    forall i, j | 0 <= i < j < |points| ensures parseDay(points[i].date) <= parseDay(points[j].date) {
      assert EarliestFirst(parseDay)(points[i]) >= EarliestFirst(parseDay)(points[j]);
    }
  }

  /**
   * Exactly one point per day key present among the filtered reports (no
   * zero-filled days), each holding the totals of the reports of its day.
   */
  lemma ChartOnePointPerDay(filtered: seq<DailyReport>, dayKey: int -> string, parseDay: string -> int)
    ensures DistinctBy(Chart(filtered, dayKey, parseDay), PointDay)
    ensures forall p :: p in Chart(filtered, dayKey, parseDay) ==>
              p == PointOf(p.date, Group(filtered, ByDay(dayKey), p.date))
  {
    var key := ByDay(dayKey);
    var ks := KeysInOrder(filtered, key);
    var rows := GroupRows(filtered, key, ks, PointOf);
    GroupRowsDistinct(filtered, key, ks, PointOf, PointDay);
    SortDescByDistinctBy(rows, EarliestFirst(parseDay), PointDay);
    SortDescByMembers(rows, EarliestFirst(parseDay));
    GroupRowsMembers(filtered, key, ks, PointOf, PointDay);
  }

  /** The days charted are exactly the day keys of the filtered reports. */
  lemma ChartDays(filtered: seq<DailyReport>, dayKey: int -> string, parseDay: string -> int)
    ensures Tags(Chart(filtered, dayKey, parseDay), PointDay) == Tags(filtered, ByDay(dayKey))
  {
    var rows := GroupRows(filtered, ByDay(dayKey), KeysInOrder(filtered, ByDay(dayKey)), PointOf);
    SortDescByTags(rows, EarliestFirst(parseDay), PointDay);
    GroupRowsTags(filtered, ByDay(dayKey), PointOf, PointDay);
  }

  /** Over the whole series, each charted counter adds up to the summary total. */
  lemma ChartTotals(filtered: seq<DailyReport>, dayKey: int -> string, parseDay: string -> int, c: Counter)
    requires Charted(c)
    ensures SumOf(Chart(filtered, dayKey, parseDay), PointCounter(c)) == Total(filtered, c)
  {
    var rows := GroupRows(filtered, ByDay(dayKey), KeysInOrder(filtered, ByDay(dayKey)), PointOf);
    SumOfPermutation(Chart(filtered, dayKey, parseDay), rows, PointCounter(c));
    GroupRowsTotal(filtered, ByDay(dayKey), PointOf, PointCounter(c), CounterOf(c));
  }
}
